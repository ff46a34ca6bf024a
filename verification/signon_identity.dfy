/**
 * The daemon side of one identity record (SignonDaemonNS::SignonIdentity):
 * the D-Bus object through which a client reads, stores, removes and
 * verifies the credentials stored under one id.  Every call that needs
 * the credentials storage is refused while the credentials system is not
 * opened; the two calls that need the user's help (updating the stored
 * password, verifying the user) ask signon-ui and answer the client later,
 * from a slot that classifies the UI's reply.
 *
 * The credentials DB, the secret decryptor and the access-control lookups
 * are collaborators whose answers are parameters of the operation that
 * meets them.  Replies, UI requests, DB writes and signals go to one
 * output log, oldest first.
 */
module Identity {
  import opened Common

  /** SIGNOND_NEW_IDENTITY: the id of a record not stored yet. */
  const NewIdentity: nat := 0

  /** SignonIdentityInfo */
  datatype IdentityInfo = IdentityInfo(
    id: nat,
    userName: string,
    password: string,
    storePassword: bool,
    caption: string,
    methods: map<string, seq<string>>,
    realms: seq<string>,
    accessControlList: seq<string>,
    ownerList: seq<string>,
    identityType: int)
  {
    predicate IsNew()
    {
      id == NewIdentity
    }
  }

  /** A default-constructed SignonIdentityInfo. */
  const EmptyInfo: IdentityInfo := IdentityInfo(NewIdentity, "", "", false, "", map[], [], [], [], 0)

  /** The D-Bus error names the identity replies. */
  datatype ErrorName =
    | InternalServerError
    | IdentityNotFound
    | StoreFailed
    | CredentialsNotAvailable
    | EncryptionFailed
    | RemoveFailed
    | OperationCanceled
    | ForgotPassword

  datatype ReplyValue = IdNumber(n: nat) | Boolean(b: bool)

  /** The keys of a signon-ui parameter map that the identity reads or writes. */
  datatype UiKey = QueryPasswordKey | UserNameKey | MessageKey | CaptionKey | ErrorKey
                 | PasswordKey | ConfirmCountKey | MessageIdKey | OtherKey(name: string)

  datatype UiValue = BoolValue(b: bool) | IntValue(i: int) | TextValue(s: string)

  type UiParams = map<UiKey, UiValue>

  /** QVariant::toInt; text is read as 0. */
  function ToInt(v: UiValue): int
  {
    match v
    case BoolValue(b) => if b then 1 else 0
    case IntValue(i) => i
    case TextValue(_) => 0
  }

  /** QVariant::toString */
  function ToText(v: UiValue): string
  {
    match v
    case BoolValue(b) => if b then "true" else "false"
    case IntValue(i) => IntToString(i)
    case TextValue(s) => s
  }

  /** Which slot a UI request's answer goes to. */
  datatype UiSlot = QuerySlot | VerifySlot

  /** The infoUpdated signal's change kinds. */
  datatype InfoChange = IdentityDataUpdated | IdentityRemoved | IdentitySignedOut

  datatype IdentityOutput =
    | ErrorReply(name: ErrorName, uiErrorCode: Option<int>)
    | ValueReply(value: ReplyValue)
    | UiQuery(params: UiParams, slot: UiSlot)
    | InfoUpdated(change: InfoChange)
    | DbQuery(identity: nat, queryPassword: bool)
    | DbInsert(info: IdentityInfo, storeSecret: bool)
    | DbUpdate(info: IdentityInfo, storeSecret: bool)
    | DbCheckPassword(identity: nat, userName: string, secret: string)
    | DbRemove(identity: nat)
    | DbRemoveData(identity: nat)
    | IdentityStored(identity: nat)

  /** What the DB answers when asked for the record: an error, or a record (a new one when never stored). */
  datatype DbLookup = LookupFailed | Record(info: IdentityInfo)

  /** What the encryptor makes of the secret the client sent. */
  datatype Decoded = DecodeFailed | Secret(text: string)

  /** What an insert or update of the DB yields: the new id of an insert, and whether an error occurred. */
  datatype DbWrite = DbWrite(insertedId: nat, errorOccurred: bool)

  /** The reply signon-ui gives: none (or an empty one), a D-Bus error, or a parameter map. */
  datatype UiReply = NoReply | UiCallError | UiAnswer(params: UiParams)

  /** How a UI reply is read, before the slot looks at the password. */
  datatype UiVerdict = UiCanceled | UiMissingErrorCode | UiForgotPassword | UiFailed(code: int) | UiAccepted(params: UiParams)

  /**
   * The reading of a UI reply shared by the two slots: no reply or an
   * error reply is a cancellation, a reply without an error code is an
   * internal error, and the error code decides the rest; only the verify
   * flow knows "forgot password".
   */
  function ClassifyUiReply(reply: UiReply, verifyFlow: bool): (v: UiVerdict)
    ensures !reply.UiAnswer? ==> v == UiCanceled
    ensures reply.UiAnswer? && ErrorKey !in reply.params ==> v == UiMissingErrorCode
    ensures reply.UiAnswer? && ErrorKey in reply.params ==>
              var code := ToInt(reply.params[ErrorKey]);
              (v.UiAccepted? <==> code == QueryErrorNone) &&
              (v == UiCanceled <==> code == QueryErrorCanceled) &&
              (v == UiForgotPassword <==> verifyFlow && code == QueryErrorForgotPassword) &&
              (v.UiFailed? <==> code != QueryErrorNone && code != QueryErrorCanceled &&
                                !(verifyFlow && code == QueryErrorForgotPassword)) &&
              (v.UiFailed? ==> v.code == code)
    ensures v.UiAccepted? ==> reply.UiAnswer? && v.params == reply.params
  {
    match reply
    case NoReply => UiCanceled
    case UiCallError => UiCanceled
    case UiAnswer(params) =>
      if ErrorKey !in params then UiMissingErrorCode
      else
        var code := ToInt(params[ErrorKey]);
        if code == QueryErrorNone then UiAccepted(params)
        else if code == QueryErrorCanceled then UiCanceled
        else if verifyFlow && code == QueryErrorForgotPassword then UiForgotPassword
        else UiFailed(code)
  }

  /** The error reply a verdict other than acceptance stands for. */
  function VerdictError(v: UiVerdict): (o: IdentityOutput)
    requires !v.UiAccepted?
    ensures o.ErrorReply?
    ensures o.name == OperationCanceled <==> v == UiCanceled
    ensures o.name == ForgotPassword <==> v == UiForgotPassword
    ensures o.uiErrorCode.Some? <==> v.UiFailed?
    ensures v.UiFailed? ==> o == ErrorReply(InternalServerError, Some(v.code))
  {
    match v
    case UiCanceled => ErrorReply(OperationCanceled, None)
    case UiMissingErrorCode => ErrorReply(InternalServerError, None)
    case UiForgotPassword => ErrorReply(ForgotPassword, None)
    case UiFailed(code) => ErrorReply(InternalServerError, Some(code))
  }

  /** What the verify slot does with a UI reply: answer with an error, answer the comparison, or ask again. */
  datatype VerifyOutcome = VerifyAnswer(reply: IdentityOutput) | Requery(params: UiParams)

  /** The number of further attempts a UI parameter map allows. */
  function ConfirmCount(params: UiParams): nat
  {
    if ConfirmCountKey in params && ToInt(params[ConfirmCountKey]) > 0 then ToInt(params[ConfirmCountKey]) else 0
  }

  /**
   * The verify slot's decision, given whether the DB handle exists and the
   * stored password of the record it compares against (None when no
   * record is held).  A wrong password with attempts left asks again with
   * one attempt fewer and the "not authorized" message; otherwise the
   * comparison is answered.
   */
  function VerifyDecision(reply: UiReply, dbPresent: bool, storedPassword: Option<string>): (o: VerifyOutcome)
    ensures var v := ClassifyUiReply(reply, true);
            !v.UiAccepted? ==> o == VerifyAnswer(VerdictError(v))
    ensures o.Requery? ==>
              reply.UiAnswer? && dbPresent && storedPassword.Some? &&
              PasswordKey in reply.params &&
              storedPassword.value != ToText(reply.params[PasswordKey]) &&
              ConfirmCount(reply.params) > 0 &&
              o.params == reply.params[ConfirmCountKey := IntValue(ConfirmCount(reply.params) - 1)]
                                      [MessageIdKey := IntValue(QueryMessageNotAuthorized)] &&
              ConfirmCount(o.params) == ConfirmCount(reply.params) - 1
    ensures o.VerifyAnswer? && o.reply.ValueReply? ==>
              reply.UiAnswer? && dbPresent && storedPassword.Some? && PasswordKey in reply.params &&
              o.reply.value == Boolean(storedPassword.value == ToText(reply.params[PasswordKey]))
    ensures ClassifyUiReply(reply, true).UiAccepted? && PasswordKey in reply.params && !dbPresent ==>
              o == VerifyAnswer(ErrorReply(StoreFailed, None))
    ensures ClassifyUiReply(reply, true).UiAccepted? && (PasswordKey !in reply.params || (dbPresent && storedPassword.None?)) ==>
              o == VerifyAnswer(ErrorReply(InternalServerError, None))
    ensures ClassifyUiReply(reply, true).UiAccepted? && PasswordKey in reply.params && dbPresent && storedPassword.Some? ==>
              var matches := storedPassword.value == ToText(reply.params[PasswordKey]);
              (o.Requery? <==> !matches && ConfirmCount(reply.params) > 0) &&
              (!o.Requery? ==> o == VerifyAnswer(ValueReply(Boolean(matches))))
  {
    var v := ClassifyUiReply(reply, true);
    if !v.UiAccepted? then VerifyAnswer(VerdictError(v))
    else
      var params := v.params;
      if PasswordKey !in params then VerifyAnswer(ErrorReply(InternalServerError, None))
      else if !dbPresent then VerifyAnswer(ErrorReply(StoreFailed, None))
      else if storedPassword.None? then VerifyAnswer(ErrorReply(InternalServerError, None))
      else
        var ret := storedPassword.value == ToText(params[PasswordKey]);
        if !ret && ConfirmCountKey in params && ToInt(params[ConfirmCountKey]) > 0 then
          var count := ToInt(params[ConfirmCountKey]);
          Requery(params[ConfirmCountKey := IntValue(count - 1)][MessageIdKey := IntValue(QueryMessageNotAuthorized)])
        else VerifyAnswer(ValueReply(Boolean(ret)))
  }

  /** A UI that answers the request it was given with no error and the user's guess. */
  function EchoGuess(params: UiParams, guess: string): UiReply
  {
    UiAnswer(params[ErrorKey := IntValue(QueryErrorNone)][PasswordKey := TextValue(guess)])
  }

  /** The number of UI queries the verify flow makes while the user types the given guesses. */
  function VerifyRounds(storedPassword: string, params: UiParams, guesses: seq<string>): nat
    decreases |guesses|
  {
    if guesses == [] then 0
    else
      match VerifyDecision(EchoGuess(params, guesses[0]), true, Some(storedPassword))
      case Requery(next) => 1 + VerifyRounds(storedPassword, next, guesses[1..])
      case VerifyAnswer(_) => 1
  }

  lemma EchoKeepsConfirmCount(params: UiParams, guess: string)
    ensures EchoGuess(params, guess).UiAnswer?
    ensures ConfirmCount(EchoGuess(params, guess).params) == ConfirmCount(params)
    ensures ClassifyUiReply(EchoGuess(params, guess), true).UiAccepted?
  {
    var p := EchoGuess(params, guess).params;
    assert ErrorKey in p && ToInt(p[ErrorKey]) == QueryErrorNone;
    assert ConfirmCountKey in p <==> ConfirmCountKey in params;
    if ConfirmCountKey in params {
      assert p[ConfirmCountKey] == params[ConfirmCountKey];
    }
  }

  /**
   * The verify flow's retry chain is bounded: however the user answers,
   * the UI is queried at most once more than the confirm count allows,
   * and a right password ends the chain at once with `true`.
   */
  lemma {:induction false} VerifyRetriesBounded(storedPassword: string, params: UiParams, guesses: seq<string>)
    ensures VerifyRounds(storedPassword, params, guesses) <= ConfirmCount(params) + 1
    ensures guesses != [] && guesses[0] == storedPassword ==>
              VerifyDecision(EchoGuess(params, guesses[0]), true, Some(storedPassword)) ==
                VerifyAnswer(ValueReply(Boolean(true)))
    decreases |guesses|
  {
    if guesses != [] {
      EchoKeepsConfirmCount(params, guesses[0]);
      var reply := EchoGuess(params, guesses[0]);
      assert reply.params[PasswordKey] == TextValue(guesses[0]);
      match VerifyDecision(reply, true, Some(storedPassword))
      case Requery(next) =>
        VerifyRetriesBounded(storedPassword, next, guesses[1..]);
      case VerifyAnswer(_) =>
    }
  }

  /**
   * The query slot's decision: a new password from the UI is written to
   * the held record (`updatedId` is the DB's answer, NEW on failure) and
   * the identity's id is answered; anything else is an error.
   */
  function QueryDecision(reply: UiReply, dbPresent: bool, heldInfo: Option<IdentityInfo>, updatedId: nat, id: nat): (o: IdentityOutput)
    ensures var v := ClassifyUiReply(reply, false);
            !v.UiAccepted? ==> o == VerdictError(v)
    ensures o.ValueReply? <==>
              ClassifyUiReply(reply, false).UiAccepted? && PasswordKey in reply.params &&
              dbPresent && heldInfo.Some? && updatedId != NewIdentity
    ensures o.ValueReply? ==> o.value == IdNumber(id)
    ensures ClassifyUiReply(reply, false).UiAccepted? && PasswordKey in reply.params && !dbPresent ==>
              o == ErrorReply(StoreFailed, None)
    ensures o.ErrorReply? ==> o.name != ForgotPassword
    ensures ClassifyUiReply(reply, false).UiAccepted? && !o.ValueReply? && !(PasswordKey in reply.params && !dbPresent) ==>
              o == ErrorReply(InternalServerError, None)
  {
    var v := ClassifyUiReply(reply, false);
    if !v.UiAccepted? then VerdictError(v)
    else if PasswordKey in v.params && !dbPresent then ErrorReply(StoreFailed, None)
    else if PasswordKey in v.params && heldInfo.Some? && updatedId != NewIdentity then ValueReply(IdNumber(id))
    else ErrorReply(InternalServerError, None)
  }

  /**
   * The record `store` hands to the DB: the client's record with the
   * decoded secret as its password and the caller's AID token, when it
   * has one, appended to the owners.
   */
  function StoredInfo(request: IdentityInfo, decodedSecret: string, idToken: Option<string>): (info: IdentityInfo)
    ensures info.password == decodedSecret
    ensures info.ownerList == request.ownerList + (if idToken.Some? then [idToken.value] else [])
    ensures info.(password := request.password, ownerList := request.ownerList) == request
  {
    request.(password := decodedSecret,
             ownerList := request.ownerList + (if idToken.Some? then [idToken.value] else []))
  }

  /** The secret is stored only when the client asks for it and the decoded secret is not empty. */
  function EffectiveStoreSecret(requested: bool, decodedSecret: string): (storeSecret: bool)
    ensures storeSecret <==> requested && decodedSecret != ""
  {
    if decodedSecret == "" then false else requested
  }

  /**
   * The fields of the deprecated storeCredentials call; its access-control
   * list also becomes the owner list of a record created from it.
   */
  datatype CredentialsRequest = CredentialsRequest(
    id: nat,
    userName: string,
    secret: string,
    storeSecret: bool,
    methods: map<string, seq<string>>,
    caption: string,
    realms: seq<string>,
    accessControlList: seq<string>,
    identityType: int)

  /** The record the deprecated storeCredentials stores: a new one, or the held one with the request's fields. */
  function DeprecatedInfo(held: Option<IdentityInfo>, request: CredentialsRequest, decodedSecret: string,
                          idToken: Option<string>): (info: IdentityInfo)
    ensures var acl := request.accessControlList + (if idToken.Some? then [idToken.value] else []);
            info.userName == request.userName && info.password == decodedSecret &&
            info.methods == request.methods && info.caption == request.caption &&
            info.realms == request.realms && info.accessControlList == acl &&
            info.identityType == request.identityType &&
            (held.None? ==> info.id == request.id && info.storePassword == request.storeSecret && info.ownerList == acl) &&
            (held.Some? ==> info.id == held.value.id && info.storePassword == held.value.storePassword &&
                            info.ownerList == held.value.ownerList)
  {
    var acl := request.accessControlList + (if idToken.Some? then [idToken.value] else []);
    if held.None? then
      IdentityInfo(request.id, request.userName, decodedSecret, request.storeSecret, request.caption,
                   request.methods, request.realms, acl, acl, request.identityType)
    else
      held.value.(userName := request.userName, password := decodedSecret, methods := request.methods,
                  caption := request.caption, realms := request.realms, accessControlList := acl,
                  identityType := request.identityType)
  }

  /** AuthCoreCache::CacheId: an identity and a method ("" for the default method). */
  datatype CacheId = CacheId(identity: nat, authMethod: string)

  /** AuthCache: the credentials kept while the secrets DB cannot take them. */
  datatype AuthCache = AuthCache(userName: string, password: string)

  /** The daemon-wide cache of credentials (AuthCoreCache). */
  class AuthCoreCache {
    var entries: map<CacheId, AuthCache>

    constructor ()
      ensures entries == map[]
    {
      entries := map[];
    }

    method Insert(key: CacheId, value: AuthCache)
      modifies this`entries
      ensures entries == old(entries)[key := value]
    {
      entries := entries[key := value];
    }
  }

  class SignonIdentity {
    var id: nat
    /** The record held between a query and the UI slot, or while storing (m_pInfo). */
    var info: Option<IdentityInfo>
    /** Whether the identity may be disposed of when idle. */
    var autoDestruct: bool
    var outputs: seq<IdentityOutput>
    const cache: AuthCoreCache

    constructor (id: nat, cache: AuthCoreCache)
      ensures this.id == id && this.cache == cache
      ensures info.None? && autoDestruct && outputs == []
    {
      this.id := id;
      this.cache := cache;
      info := None;
      autoDestruct := true;
      outputs := [];
    }

    /** The reply of every guarded call while the credentials system is not opened. */
    function CamUnavailable(): IdentityOutput
    {
      ErrorReply(InternalServerError, None)
    }

    /**
     * queryInfo(ok, queryPassword): asks the DB for the record, with or
     * without its password, and holds it in `info`; nothing is held after
     * a DB error.  `lookup` is the DB's answer to that query.
     */
    method LoadInfo(lookup: DbLookup, queryPassword: bool) returns (ok: bool, result: IdentityInfo)
      modifies this`info, this`outputs
      ensures ok <==> lookup.Record?
      ensures info == (if ok then Some(lookup.info) else None)
      ensures result == (if ok then lookup.info else EmptyInfo)
      ensures outputs == old(outputs) + [DbQuery(id, queryPassword)]
    {
      info := None;
      outputs := outputs + [DbQuery(id, queryPassword)];
      if lookup.LookupFailed? {
        return false, EmptyInfo;
      }
      info := Some(lookup.info);
      return true, lookup.info;
    }

    /**
     * queryInfo(): the stored record, asked for without its password;
     * CREDENTIALS_NOT_AVAILABLE on a DB error and IDENTITY_NOT_FOUND for a
     * record never stored.
     */
    method QueryInfo(camOpened: bool, lookup: DbLookup) returns (result: Option<IdentityInfo>)
      modifies this`info, this`outputs
      ensures !camOpened ==> result.None? && outputs == old(outputs) + [CamUnavailable()] && info == old(info)
      ensures camOpened ==> info == (if lookup.Record? then Some(lookup.info) else None)
      ensures camOpened && lookup.LookupFailed? ==>
                result.None? && outputs == old(outputs) + [DbQuery(id, false), ErrorReply(CredentialsNotAvailable, None)]
      ensures camOpened && lookup.Record? && lookup.info.IsNew() ==>
                result.None? && outputs == old(outputs) + [DbQuery(id, false), ErrorReply(IdentityNotFound, None)]
      ensures camOpened && lookup.Record? && !lookup.info.IsNew() ==>
                result == Some(lookup.info) && outputs == old(outputs) + [DbQuery(id, false)]
    {
      if !camOpened {
        outputs := outputs + [CamUnavailable()];
        return None;
      }
      var ok, record := LoadInfo(lookup, false);
      if !ok {
        outputs := outputs + [ErrorReply(CredentialsNotAvailable, None)];
        return None;
      }
      if record.IsNew() {
        outputs := outputs + [ErrorReply(IdentityNotFound, None)];
        return None;
      }
      return Some(record);
    }

    /**
     * requestCredentialsUpdate: asks the UI for a new password of a record
     * that stores its password (the record is read without its password),
     * and pins the identity until the answer.  Every path returns NEW (0).
     */
    method RequestCredentialsUpdate(camOpened: bool, lookup: DbLookup, displayMessage: string) returns (r: nat)
      modifies this`info, this`autoDestruct, this`outputs
      ensures r == NewIdentity
      ensures !camOpened ==> outputs == old(outputs) + [CamUnavailable()] && info == old(info) && autoDestruct == old(autoDestruct)
      ensures camOpened ==> info == (if lookup.Record? then Some(lookup.info) else None)
      ensures camOpened && lookup.LookupFailed? ==>
                outputs == old(outputs) + [DbQuery(id, false), ErrorReply(IdentityNotFound, None)] &&
                autoDestruct == old(autoDestruct)
      ensures camOpened && lookup.Record? && !lookup.info.storePassword ==>
                outputs == old(outputs) + [DbQuery(id, false), ErrorReply(StoreFailed, None)] &&
                autoDestruct == old(autoDestruct)
      ensures camOpened && lookup.Record? && lookup.info.storePassword ==>
                !autoDestruct &&
                outputs == old(outputs) +
                  [DbQuery(id, false),
                   UiQuery(map[QueryPasswordKey := BoolValue(true), UserNameKey := TextValue(lookup.info.userName),
                               MessageKey := TextValue(displayMessage), CaptionKey := TextValue(lookup.info.caption)],
                           QuerySlot)]
    {
      if !camOpened {
        outputs := outputs + [CamUnavailable()];
        return NewIdentity;
      }
      var ok, record := LoadInfo(lookup, false);
      if !ok {
        outputs := outputs + [ErrorReply(IdentityNotFound, None)];
        return NewIdentity;
      }
      if !record.storePassword {
        outputs := outputs + [ErrorReply(StoreFailed, None)];
        return NewIdentity;
      }
      var uiRequest := map[QueryPasswordKey := BoolValue(true), UserNameKey := TextValue(record.userName),
                           MessageKey := TextValue(displayMessage), CaptionKey := TextValue(record.caption)];
      outputs := outputs + [UiQuery(uiRequest, QuerySlot)];
      autoDestruct := false;
      return 0;
    }

    /** queryUserPassword: a UI request answered in the verify slot; pins the identity. */
    method QueryUserPassword(params: UiParams)
      modifies this`autoDestruct, this`outputs
      ensures !autoDestruct && outputs == old(outputs) + [UiQuery(params, VerifySlot)]
    {
      outputs := outputs + [UiQuery(params, VerifySlot)];
      autoDestruct := false;
    }

    /**
     * verifyUser: reads the record with its password and asks the UI for
     * the password of a record whose password is stored and not empty,
     * with the caller's parameters; the answer comes later, so the call
     * itself always returns false.
     */
    method VerifyUser(camOpened: bool, lookup: DbLookup, params: UiParams) returns (r: bool)
      modifies this`info, this`autoDestruct, this`outputs
      ensures !r
      ensures !camOpened ==> outputs == old(outputs) + [CamUnavailable()] && info == old(info) && autoDestruct == old(autoDestruct)
      ensures camOpened ==> info == (if lookup.Record? then Some(lookup.info) else None)
      ensures camOpened && lookup.LookupFailed? ==>
                outputs == old(outputs) + [DbQuery(id, true), ErrorReply(IdentityNotFound, None)] &&
                autoDestruct == old(autoDestruct)
      ensures camOpened && lookup.Record? && (!lookup.info.storePassword || lookup.info.password == "") ==>
                outputs == old(outputs) + [DbQuery(id, true), ErrorReply(CredentialsNotAvailable, None)] &&
                autoDestruct == old(autoDestruct)
      ensures camOpened && lookup.Record? && lookup.info.storePassword && lookup.info.password != "" ==>
                !autoDestruct &&
                outputs == old(outputs) +
                  [DbQuery(id, true),
                   UiQuery(params[QueryPasswordKey := BoolValue(true)][UserNameKey := TextValue(lookup.info.userName)]
                                 [CaptionKey := TextValue(lookup.info.caption)], VerifySlot)]
    {
      if !camOpened {
        outputs := outputs + [CamUnavailable()];
        return false;
      }
      var ok, record := LoadInfo(lookup, true);
      if !ok {
        outputs := outputs + [ErrorReply(IdentityNotFound, None)];
        return false;
      }
      if !record.storePassword || record.password == "" {
        outputs := outputs + [ErrorReply(CredentialsNotAvailable, None)];
        return false;
      }
      var uiRequest := params[QueryPasswordKey := BoolValue(true)][UserNameKey := TextValue(record.userName)]
                             [CaptionKey := TextValue(record.caption)];
      QueryUserPassword(uiRequest);
      return false;
    }

    /**
     * verifySecret: decodes the client's secret, reads the record (with
     * its password, the default of queryInfo) and asks the DB to compare the
     * decoded secret with the one stored for the record's id and user name
     * (`matches` is the DB's answer).
     */
    method VerifySecret(camOpened: bool, decoded: Decoded, lookup: DbLookup, matches: bool) returns (r: bool)
      modifies this`info, this`outputs
      ensures r <==> camOpened && decoded.Secret? && lookup.Record? && matches
      ensures !camOpened ==> outputs == old(outputs) + [CamUnavailable()] && info == old(info)
      ensures camOpened && decoded.DecodeFailed? ==> outputs == old(outputs) + [ErrorReply(EncryptionFailed, None)] && info == old(info)
      ensures camOpened && decoded.Secret? ==> info == (if lookup.Record? then Some(lookup.info) else None)
      ensures camOpened && decoded.Secret? && lookup.LookupFailed? ==>
                outputs == old(outputs) + [DbQuery(id, true), ErrorReply(CredentialsNotAvailable, None)]
      ensures camOpened && decoded.Secret? && lookup.Record? ==>
                outputs == old(outputs) + [DbQuery(id, true),
                                           DbCheckPassword(lookup.info.id, lookup.info.userName, decoded.text)]
    {
      if !camOpened {
        outputs := outputs + [CamUnavailable()];
        return false;
      }
      if decoded.DecodeFailed? {
        outputs := outputs + [ErrorReply(EncryptionFailed, None)];
        return false;
      }
      var ok, _ := LoadInfo(lookup, true);
      if !ok {
        outputs := outputs + [ErrorReply(CredentialsNotAvailable, None)];
        return false;
      }
      outputs := outputs + [DbCheckPassword(lookup.info.id, lookup.info.userName, decoded.text)];
      return matches;
    }

    /**
     * remove: deletes the record and signals the removal; a null DB handle
     * or a failed delete (`removeOk` is the DB's answer) is REMOVE_FAILED.
     */
    method Remove(camOpened: bool, dbPresent: bool, removeOk: bool)
      modifies this`outputs
      ensures !camOpened ==> outputs == old(outputs) + [CamUnavailable()]
      ensures camOpened ==>
                outputs == old(outputs) + (if dbPresent then [DbRemove(id)] else []) +
                  [if dbPresent && removeOk then InfoUpdated(IdentityRemoved) else ErrorReply(RemoveFailed, None)]
    {
      if !camOpened {
        outputs := outputs + [CamUnavailable()];
        return;
      }
      if dbPresent {
        outputs := outputs + [DbRemove(id)];
      }
      if !dbPresent || !removeOk {
        outputs := outputs + [ErrorReply(RemoveFailed, None)];
        return;
      }
      outputs := outputs + [InfoUpdated(IdentityRemoved)];
    }

    /**
     * signOut: a stored identity clears its session data (when there is a
     * DB) and signals the sign-out; the call always succeeds and is not
     * guarded.
     */
    method SignOut(dbPresent: bool) returns (r: bool)
      modifies this`outputs
      ensures r
      ensures outputs == old(outputs) +
                (if id != NewIdentity
                 then (if dbPresent then [DbRemoveData(id)] else []) + [InfoUpdated(IdentitySignedOut)]
                 else [])
    {
      if id != NewIdentity {
        if dbPresent {
          outputs := outputs + [DbRemoveData(id)];
        }
        outputs := outputs + [InfoUpdated(IdentitySignedOut)];
      }
      return true;
    }

    /**
     * storeCredentials(info, storeSecret): inserts a new record or updates
     * a stored one.  A failed insert resets the id to NEW.  A successful
     * write notifies the daemon, caches the credentials under the default
     * method when the secrets DB is closed, signals the update and drops
     * the held record.
     */
    method StoreInfo(record: IdentityInfo, storeSecret: bool, dbPresent: bool, write: DbWrite, secretsOpen: bool)
      returns (r: nat)
      modifies this`id, this`info, this`outputs, cache`entries
      ensures r == (if dbPresent then id else NewIdentity)
      ensures !dbPresent ==>
                id == old(id) && info == old(info) && outputs == old(outputs) &&
                cache.entries == old(cache.entries)
      ensures dbPresent && write.errorOccurred ==>
                id == (if record.IsNew() then NewIdentity else old(id)) && info == old(info) &&
                cache.entries == old(cache.entries) &&
                outputs == old(outputs) + [if record.IsNew() then DbInsert(record, storeSecret) else DbUpdate(record, storeSecret)]
      ensures dbPresent && !write.errorOccurred ==>
                id == (if record.IsNew() then write.insertedId else old(id)) && info.None? &&
                cache.entries == (if secretsOpen then old(cache.entries)
                                  else old(cache.entries)[CacheId(id, "") := AuthCache(record.userName, record.password)]) &&
                outputs == old(outputs) +
                  [if record.IsNew() then DbInsert(record, storeSecret) else DbUpdate(record, storeSecret)] +
                  [IdentityStored(id), InfoUpdated(IdentityDataUpdated)]
    {
      if !dbPresent {
        return NewIdentity;
      }
      var newIdentity := record.IsNew();
      if newIdentity {
        id := write.insertedId;
        outputs := outputs + [DbInsert(record, storeSecret)];
      } else {
        outputs := outputs + [DbUpdate(record, storeSecret)];
      }
      if write.errorOccurred {
        if newIdentity {
          id := NewIdentity;
        }
      } else {
        outputs := outputs + [IdentityStored(id)];
        if !secretsOpen {
          cache.Insert(CacheId(id, ""), AuthCache(record.userName, record.password));
        }
        outputs := outputs + [InfoUpdated(IdentityDataUpdated)];
        info := None;
      }
      return id;
    }

    /**
     * store: decodes the secret, refusing with ENCRYPTION_FAILED (and
     * touching nothing) when that fails; otherwise stores StoredInfo with
     * the secret kept only when asked for and not empty, takes the
     * resulting id, and reports STORE_FAILED when that is NEW.
     */
    method Store(camOpened: bool, request: IdentityInfo, decoded: Decoded, idToken: Option<string>,
                 dbPresent: bool, write: DbWrite, secretsOpen: bool) returns (r: nat)
      modifies this`id, this`info, this`outputs, cache`entries
      ensures r == (if camOpened && decoded.Secret? then id else NewIdentity)
      ensures !(camOpened && decoded.Secret?) ==>
                id == old(id) && info == old(info) && cache.entries == old(cache.entries) &&
                outputs == old(outputs) + [if camOpened then ErrorReply(EncryptionFailed, None) else CamUnavailable()]
      ensures camOpened && decoded.Secret? && dbPresent ==>
                var record := StoredInfo(request, decoded.text, idToken);
                var storeSecret := EffectiveStoreSecret(request.storePassword, decoded.text);
                var written := if record.IsNew() then DbInsert(record, storeSecret) else DbUpdate(record, storeSecret);
                (write.errorOccurred ==>
                   id == (if record.IsNew() then NewIdentity else old(id)) && info == old(info) &&
                   cache.entries == old(cache.entries) &&
                   outputs == old(outputs) + [written] + (if id == NewIdentity then [ErrorReply(StoreFailed, None)] else [])) &&
                (!write.errorOccurred ==>
                   id == (if record.IsNew() then write.insertedId else old(id)) && info.None? &&
                   cache.entries == (if secretsOpen then old(cache.entries)
                                     else old(cache.entries)[CacheId(id, "") := AuthCache(record.userName, record.password)]) &&
                   outputs == old(outputs) + [written, IdentityStored(id), InfoUpdated(IdentityDataUpdated)] +
                              (if id == NewIdentity then [ErrorReply(StoreFailed, None)] else []))
      ensures camOpened && decoded.Secret? && !dbPresent ==>
                id == NewIdentity && info == old(info) && cache.entries == old(cache.entries) &&
                outputs == old(outputs) + [ErrorReply(StoreFailed, None)]
    {
      if !camOpened {
        outputs := outputs + [CamUnavailable()];
        return NewIdentity;
      }
      if decoded.DecodeFailed? {
        outputs := outputs + [ErrorReply(EncryptionFailed, None)];
        return NewIdentity;
      }
      var record := StoredInfo(request, decoded.text, idToken);
      var storeSecret := request.storePassword;
      if decoded.text == "" {
        storeSecret := false;
      }
      id := StoreInfo(record, storeSecret, dbPresent, write, secretsOpen);
      if id == NewIdentity {
        outputs := outputs + [ErrorReply(StoreFailed, None)];
      }
      return id;
    }

    /**
     * The deprecated storeCredentials: stores DeprecatedInfo, whose secret
     * is kept as the caller asked even when it is empty, and reports
     * STORE_FAILED when the identity's id is NEW afterwards.
     */
    method StoreCredentials(camOpened: bool, request: CredentialsRequest, decoded: Decoded, idToken: Option<string>,
                            dbPresent: bool, write: DbWrite, secretsOpen: bool) returns (r: nat)
      modifies this`id, this`info, this`outputs, cache`entries
      ensures r == (if camOpened && decoded.Secret? then id else NewIdentity)
      ensures !(camOpened && decoded.Secret?) ==>
                id == old(id) && info == old(info) && cache.entries == old(cache.entries) &&
                outputs == old(outputs) + [if camOpened then ErrorReply(EncryptionFailed, None) else CamUnavailable()]
      ensures camOpened && decoded.Secret? && dbPresent ==>
                var record := DeprecatedInfo(old(info), request, decoded.text, idToken);
                var written := if record.IsNew() then DbInsert(record, request.storeSecret)
                               else DbUpdate(record, request.storeSecret);
                (write.errorOccurred ==>
                   id == (if record.IsNew() then NewIdentity else old(id)) && info == Some(record) &&
                   cache.entries == old(cache.entries) &&
                   outputs == old(outputs) + [written] + (if id == NewIdentity then [ErrorReply(StoreFailed, None)] else [])) &&
                (!write.errorOccurred ==>
                   id == (if record.IsNew() then write.insertedId else old(id)) && info.None? &&
                   cache.entries == (if secretsOpen then old(cache.entries)
                                     else old(cache.entries)[CacheId(id, "") := AuthCache(record.userName, record.password)]) &&
                   outputs == old(outputs) + [written, IdentityStored(id), InfoUpdated(IdentityDataUpdated)] +
                              (if id == NewIdentity then [ErrorReply(StoreFailed, None)] else []))
      ensures camOpened && decoded.Secret? && !dbPresent ==>
                id == old(id) && info == Some(DeprecatedInfo(old(info), request, decoded.text, idToken)) &&
                cache.entries == old(cache.entries) &&
                outputs == old(outputs) + (if id == NewIdentity then [ErrorReply(StoreFailed, None)] else [])
    {
      if !camOpened {
        outputs := outputs + [CamUnavailable()];
        return NewIdentity;
      }
      if decoded.DecodeFailed? {
        outputs := outputs + [ErrorReply(EncryptionFailed, None)];
        return NewIdentity;
      }
      var record := DeprecatedInfo(info, request, decoded.text, idToken);
      info := Some(record);
      var _ := StoreInfo(record, request.storeSecret, dbPresent, write, secretsOpen);
      if id == NewIdentity {
        outputs := outputs + [ErrorReply(StoreFailed, None)];
      }
      return id;
    }

    /**
     * queryUiSlot: unpins the identity and answers the pending
     * requestCredentialsUpdate call as QueryDecision says; a new password
     * is written to the held record, which is then dropped
     * (`updatedId` is the DB's answer to that write).
     */
    method QueryUiSlot(reply: UiReply, dbPresent: bool, updatedId: nat)
      modifies this`autoDestruct, this`info, this`outputs
      ensures autoDestruct
      ensures var v := ClassifyUiReply(reply, false);
              var writes := v.UiAccepted? && PasswordKey in reply.params && dbPresent && old(info).Some?;
              info == (if writes then None else old(info)) &&
              outputs == old(outputs) +
                (if writes then [DbUpdate(old(info).value.(password := ToText(reply.params[PasswordKey])), true)] else []) +
                [QueryDecision(reply, dbPresent, old(info), updatedId, id)]
    {
      autoDestruct := true;
      var verdict := ClassifyUiReply(reply, false);
      if !verdict.UiAccepted? {
        outputs := outputs + [VerdictError(verdict)];
        return;
      }
      var params := verdict.params;
      if PasswordKey in params {
        if !dbPresent {
          outputs := outputs + [ErrorReply(StoreFailed, None)];
          return;
        }
        if info.Some? {
          var updated := info.value.(password := ToText(params[PasswordKey]));
          outputs := outputs + [DbUpdate(updated, true)];
          info := None;
          if updatedId != NewIdentity {
            outputs := outputs + [ValueReply(IdNumber(id))];
            return;
          }
        }
      }
      outputs := outputs + [ErrorReply(InternalServerError, None)];
    }

    /**
     * verifyUiSlot: unpins the identity and either answers the pending
     * verifyUser call, dropping the held record, or asks the UI again as
     * VerifyDecision says (which pins it again and keeps the record).
     */
    method VerifyUiSlot(reply: UiReply, dbPresent: bool)
      modifies this`autoDestruct, this`info, this`outputs
      ensures var o := VerifyDecision(reply, dbPresent, if old(info).Some? then Some(old(info).value.password) else None);
              match o
              case Requery(params) =>
                !autoDestruct && info == old(info) && outputs == old(outputs) + [UiQuery(params, VerifySlot)]
              case VerifyAnswer(answer) =>
                autoDestruct && outputs == old(outputs) + [answer] &&
                info == (if answer.ValueReply? then None else old(info))
    {
      autoDestruct := true;
      var verdict := ClassifyUiReply(reply, true);
      if !verdict.UiAccepted? {
        outputs := outputs + [VerdictError(verdict)];
        return;
      }
      var params := verdict.params;
      if PasswordKey in params {
        if !dbPresent {
          outputs := outputs + [ErrorReply(StoreFailed, None)];
          return;
        }
        if info.Some? {
          var ret := info.value.password == ToText(params[PasswordKey]);
          if !ret && ConfirmCountKey in params {
            var count := ToInt(params[ConfirmCountKey]);
            if count > 0 {
              params := params[ConfirmCountKey := IntValue(count - 1)];
              params := params[MessageIdKey := IntValue(QueryMessageNotAuthorized)];
              QueryUserPassword(params);
              return;
            }
          }
          info := None;
          outputs := outputs + [ValueReply(Boolean(ret))];
          return;
        }
      }
      outputs := outputs + [ErrorReply(InternalServerError, None)];
    }
  }
}
