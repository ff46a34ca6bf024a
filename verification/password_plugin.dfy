/**
 * The password authentication plugin (PasswordPluginNS::PasswordPlugin):
 * it answers with the stored secret when the daemon supplies one, and
 * otherwise asks the UI for a password (and a username when none is
 * known).  The processing flag makes sure that every `process` call is
 * answered by at most one terminal reply, a result or an error.
 */
module PasswordPlugin {
  import opened Common

  /** type(): the plugin's name. */
  function PluginType(): (t: string)
    ensures t == "password"
  {
    "password"
  }

  /** mechanisms(): a single mechanism, named like the plugin. */
  function Mechanisms(): (ms: seq<string>)
    ensures ms == [PluginType()]
  {
    ["password"]
  }

  /** The session data the daemon hands to `process`, as its getters read it ("" when unset). */
  datatype SessionData = SessionData(userName: string, secret: string)

  /** The session data of a result; None is a property left unset. */
  datatype Credentials = Credentials(userName: Option<string>, secret: Option<string>)

  /** The UI session data of a userActionRequired request. */
  datatype UiRequest = UiRequest(userName: Option<string>, queryUserName: bool, queryPassword: bool)

  /** The UI session data that comes back in userActionFinished. */
  datatype UiReply = UiReply(userName: string, secret: string, queryErrorCode: int)

  datatype ErrorKind = SessionCanceled | UserInteraction

  datatype PluginError = PluginError(kind: ErrorKind, message: string)

  /** The plugin's signals. */
  datatype Signal =
    | Result(data: Credentials)
    | Error(err: PluginError)
    | UserActionRequired(request: UiRequest)
  {
    predicate Terminal()
    {
      Result? || Error?
    }
  }

  function IfSet(s: string): Option<string>
  {
    if s == "" then None else Some(s)
  }

  /**
   * What `process` emits: a result carrying a non-empty secret at once,
   * or a UI request for the password.
   */
  function ProcessSignal(inData: SessionData): (s: Signal)
    ensures s.Result? <==> inData.secret != ""
    ensures s.Result? ==>
              s.data.secret == Some(inData.secret) &&
              (s.data.userName.Some? <==> inData.userName != "") &&
              (s.data.userName.Some? ==> s.data.userName.value == inData.userName)
    ensures s.UserActionRequired? <==> inData.secret == ""
    ensures s.UserActionRequired? ==>
              s.request.queryPassword &&
              (s.request.queryUserName <==> inData.userName == "") &&
              (inData.userName != "" ==> s.request.userName == Some(inData.userName))
  {
    if inData.secret != "" then Result(Credentials(IfSet(inData.userName), Some(inData.secret)))
    else if inData.userName == "" then UserActionRequired(UiRequest(None, true, true))
    else UserActionRequired(UiRequest(Some(inData.userName), false, true))
  }

  /** The error reported for a UI reply with an error code other than NONE and CANCELED. */
  function UserInteractionMessage(code: int): string
  {
    "userActionFinished error: " + IntToString(code)
  }

  /**
   * What `userActionFinished` replies: the UI's credentials on NONE,
   * SessionCanceled on CANCELED, a UserInteraction error naming the code
   * otherwise.
   */
  function UserActionSignal(data: UiReply): (s: Signal)
    ensures s.Terminal()
    ensures s.Result? <==> data.queryErrorCode == QueryErrorNone
    ensures s.Result? ==> s.data == Credentials(Some(data.userName), Some(data.secret))
    ensures s.Error? && s.err.kind == SessionCanceled <==> data.queryErrorCode == QueryErrorCanceled
    ensures s.Error? && s.err.kind == UserInteraction ==>
              s.err.message == UserInteractionMessage(data.queryErrorCode)
  {
    if data.queryErrorCode == QueryErrorNone then Result(Credentials(Some(data.userName), Some(data.secret)))
    else if data.queryErrorCode == QueryErrorCanceled then Error(PluginError(SessionCanceled, ""))
    else Error(PluginError(UserInteraction, UserInteractionMessage(data.queryErrorCode)))
  }

  /** The error message of a failed UI interaction identifies the UI's error code. */
  lemma UserInteractionMessageIdentifiesCode(a: int, b: int)
    requires UserInteractionMessage(a) == UserInteractionMessage(b)
    ensures a == b
  {
    var prefix := "userActionFinished error: ";
    assert IntToString(a) == UserInteractionMessage(a)[|prefix|..];
    assert IntToString(b) == UserInteractionMessage(b)[|prefix|..];
    IntToStringInjective(a, b);
  }

  function TerminalCount(signals: seq<Signal>): nat
  {
    if signals == [] then 0
    else TerminalCount(signals[..|signals| - 1]) + (if signals[|signals| - 1].Terminal() then 1 else 0)
  }

  lemma TerminalCountAppend(signals: seq<Signal>, s: Signal)
    ensures TerminalCount(signals + [s]) == TerminalCount(signals) + (if s.Terminal() then 1 else 0)
  {
    assert (signals + [s])[..|signals|] == signals;
  }

  class PasswordPlugin {
    /** The processing flag (a file-level static of the plugin). */
    var isProcessing: bool
    /** Every signal emitted, oldest first. */
    var signals: seq<Signal>
    /** The signals emitted since the latest `process` call. */
    ghost var round: seq<Signal>

    /**
     * The round is the tail of the emitted signals; it holds at most one
     * terminal reply, and none yet while processing.
     */
    ghost predicate Valid()
      reads this
    {
      |round| <= |signals| && round == signals[|signals| - |round|..] &&
      TerminalCount(round) <= 1 && (isProcessing ==> TerminalCount(round) == 0)
    }

    constructor ()
      ensures Valid() && !isProcessing && signals == [] && round == []
    {
      isProcessing := false;
      signals := [];
      round := [];
    }

    /** Emits `error` only while processing, and ends processing. */
    method ReplyError(err: PluginError)
      requires Valid()
      modifies this`isProcessing, this`signals, this`round
      ensures Valid() && !isProcessing
      ensures signals == old(signals) + (if old(isProcessing) then [Error(err)] else [])
      ensures round == old(round) + (if old(isProcessing) then [Error(err)] else [])
    {
      if isProcessing {
        TerminalCountAppend(round, Error(err));
        signals := signals + [Error(err)];
        round := round + [Error(err)];
        isProcessing := false;
      }
    }

    /** Emits `result` only while processing, and ends processing. */
    method ReplyResult(data: Credentials)
      requires Valid()
      modifies this`isProcessing, this`signals, this`round
      ensures Valid() && !isProcessing
      ensures signals == old(signals) + (if old(isProcessing) then [Result(data)] else [])
      ensures round == old(round) + (if old(isProcessing) then [Result(data)] else [])
    {
      if isProcessing {
        TerminalCountAppend(round, Result(data));
        signals := signals + [Result(data)];
        round := round + [Result(data)];
        isProcessing := false;
      }
    }

    /** cancel: a SessionCanceled error, emitted only while processing. */
    method Cancel()
      requires Valid()
      modifies this`isProcessing, this`signals, this`round
      ensures Valid() && !isProcessing
      ensures signals == old(signals) + (if old(isProcessing) then [Error(PluginError(SessionCanceled, ""))] else [])
      ensures round == old(round) + (if old(isProcessing) then [Error(PluginError(SessionCanceled, ""))] else [])
    {
      ReplyError(PluginError(SessionCanceled, ""));
    }

    /**
     * process: starts a new round and either replies the supplied secret
     * or asks the UI, staying in processing until the UI answers.
     */
    method Process(inData: SessionData, mechanism: string)
      requires Valid()
      modifies this`isProcessing, this`signals, this`round
      ensures Valid()
      ensures signals == old(signals) + [ProcessSignal(inData)]
      ensures round == [ProcessSignal(inData)]
      ensures isProcessing <==> inData.secret == ""
    {
      isProcessing := true;
      round := [];
      if inData.secret != "" {
        ReplyResult(Credentials(IfSet(inData.userName), Some(inData.secret)));
        return;
      }
      var request := if inData.userName == "" then UiRequest(None, true, true)
                     else UiRequest(Some(inData.userName), false, true);
      TerminalCountAppend(round, UserActionRequired(request));
      signals := signals + [UserActionRequired(request)];
      round := round + [UserActionRequired(request)];
    }

    /** userActionFinished: the UI's answer becomes the one terminal reply of the round. */
    method UserActionFinished(data: UiReply)
      requires Valid()
      modifies this`isProcessing, this`signals, this`round
      ensures Valid() && !isProcessing
      ensures signals == old(signals) + (if old(isProcessing) then [UserActionSignal(data)] else [])
      ensures round == old(round) + (if old(isProcessing) then [UserActionSignal(data)] else [])
    {
      if data.queryErrorCode == QueryErrorNone {
        ReplyResult(Credentials(Some(data.userName), Some(data.secret)));
        return;
      }
      if data.queryErrorCode == QueryErrorCanceled {
        ReplyError(PluginError(SessionCanceled, ""));
      } else {
        ReplyError(PluginError(UserInteraction, UserInteractionMessage(data.queryErrorCode)));
      }
    }
  }
}
