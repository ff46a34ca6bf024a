/**
 * The C side of the OAuth account plugin (oauth-accountplugin.c): login
 * with optional retries, auth from the stored access token, logout, and
 * the numbered custom requests (setters of the server URL and consumer
 * credentials, getters such as the token information).  Every call
 * produces a response record carrying an optional GError, a numeric
 * error code and an optional NUL-terminated byte array.
 *
 * The network layer (authenticateUser, retrieveTokenInfo, deleteToken and
 * the setters, in oauth-account-utils.c) is not part of this model; its
 * answers are given to the operations as a Backend value.
 */
module OAuthAccountPlugin {
  import opened Common

  // SignonErrorCode (oauth-account-utils.h)
  const ErrorCommunication: int := 10
  const ErrorNoConnection: int := 5
  const ErrorOperationFailed: int := 4
  const ErrorNotAuthorized: int := 3
  const ErrorInvalidUsername: int := 2
  const ErrorOperationCancelled: int := 1
  const ErrorNone: int := 0
  const ErrorGeneral: int := -1
  const ErrorInvalidRequestId: int := -2
  const ErrorInvalidServiceId: int := -3
  const ErrorInvalidServiceType: int := -4
  const ErrorInvalidCustomFunc: int := -5
  const ErrorInvalidParameter: int := -6
  const ErrorNotInitialized: int := -7

  // SsoNokiaAccountCustomFunc (oauth-accountplugin.h); the setters lie
  // strictly between SetBegin and SetEnd, the getters above SetEnd.
  const FuncNop: int := 0
  const SetBegin: int := 1
  const SetServerUrl: int := 2
  const SetConsumerKey: int := 3
  const SetConsumerSecret: int := 4
  const SetEnd: int := 5
  const GetTokenInfo: int := 6
  const GetUserProfile: int := 7
  const GetUserInfo: int := 8
  const GetContacts: int := 9
  const GetMarketingConsent: int := 10

  /** sso_nokiaaccount_plugin_name: the same name for every plugin object. */
  function PluginName(): (name: string)
    ensures name == "OAuthAccount"
  {
    "OAuthAccount"
  }

  datatype GError = GError(code: int, message: string)

  /** SsoPluginResponse */
  datatype PluginResponse = PluginResponse(err: Option<GError>, responseError: int, response: Option<seq<Byte>>)

  /** What one call of the network layer yields: its GError and its result string. */
  datatype CallResult = CallResult(error: Option<GError>, result: Option<seq<Byte>>)

  /** The answers of the network layer. */
  datatype Backend = Backend(
    authenticateUser: nat -> CallResult,   // the answer to the n-th authentication attempt
    retrieveTokenInfo: CallResult,
    deleteToken: CallResult,
    setUrl: seq<Byte> -> bool,
    setConsumerKey: seq<Byte> -> bool,
    setConsumerSecret: seq<Byte> -> bool)

  /** A result string copied with its terminating NUL. */
  function WithNul(s: seq<Byte>): (r: seq<Byte>)
    ensures |r| == |s| + 1 && r[..|s|] == s && r[|s|] == 0
    ensures s == [] ==> r == [0]
  {
    s + [0]
  }

  predicate Succeeded(attempt: CallResult)
  {
    attempt.error.None? && attempt.result.Some?
  }

  /**
   * The response a single authentication attempt stands for: the result
   * with NONE when there is no GError and a result, otherwise no result
   * and the GError's code (GENERAL when there is no GError).
   */
  function AttemptResponse(attempt: CallResult): (r: PluginResponse)
    ensures r.err == attempt.error
    ensures r.response.Some? <==> Succeeded(attempt)
    ensures Succeeded(attempt) ==> r.responseError == ErrorNone && r.response.value == WithNul(attempt.result.value)
    ensures !Succeeded(attempt) && attempt.error.None? ==> r.responseError == ErrorGeneral
    ensures attempt.error.Some? ==> r.responseError == attempt.error.value.code
  {
    if Succeeded(attempt) then PluginResponse(None, ErrorNone, Some(WithNul(attempt.result.value)))
    else PluginResponse(attempt.error, if attempt.error.Some? then attempt.error.value.code else ErrorGeneral, None)
  }

  /** The retry loop goes on while the code is not NONE and no GError was set. */
  predicate RetryWanted(r: PluginResponse)
  {
    r.responseError != ErrorNone && r.err.None?
  }

  /**
   * One pass of the login loop body as written: a successful attempt
   * stores the result but leaves the error code of an earlier pass.
   */
  function LoginPassAsWritten(response: PluginResponse, attempt: CallResult): (r: PluginResponse)
    ensures r.err == attempt.error
    ensures r.response.Some? <==> Succeeded(attempt)
    ensures Succeeded(attempt) ==> r.responseError == response.responseError
    ensures attempt.error.Some? ==> r.responseError == attempt.error.value.code
  {
    if Succeeded(attempt) then
      PluginResponse(attempt.error, response.responseError, Some(WithNul(attempt.result.value)))
    else
      PluginResponse(attempt.error, if attempt.error.Some? then attempt.error.value.code else ErrorGeneral, None)
  }

  function LoginLoopAsWritten(auth: nat -> CallResult, maxRetries: nat, tries: nat, response: PluginResponse): (r: PluginResponse)
    ensures r.err.Some? ==> r.response.None? && r.responseError == r.err.value.code
    ensures r.response.Some? ==> r.err.None? && r.responseError in {response.responseError, ErrorGeneral}
    decreases maxRetries - tries
  {
    var next := LoginPassAsWritten(response, auth(tries));
    if tries + 1 < maxRetries && RetryWanted(next) then LoginLoopAsWritten(auth, maxRetries, tries + 1, next)
    else next
  }

  /**
   * nokiaaccount_plugin_login as written, for a build without
   * SSO_MAX_RETRIES (None: one attempt) or with it (Some(m): a do-while
   * loop of at most m attempts, at least one).
   */
  function LoginAsWritten(auth: nat -> CallResult, maxRetries: Option<nat>): (r: PluginResponse)
    ensures r.err.Some? ==> r.response.None? && r.responseError == r.err.value.code
    ensures r.response.Some? ==> r.err.None?
    ensures maxRetries.None? && r.response.Some? ==> r.responseError == ErrorNone
    ensures r.response.Some? ==> r.responseError in {ErrorNone, ErrorGeneral}
  {
    var initial := PluginResponse(None, ErrorNone, None);
    match maxRetries
    case None => LoginPassAsWritten(initial, auth(0))
    case Some(m) => LoginLoopAsWritten(auth, m, 0, initial)
  }

  /** Without retries the code as written gives exactly the attempt's response. */
  lemma LoginAsWrittenSingleAttempt(auth: nat -> CallResult)
    ensures LoginAsWritten(auth, None) == AttemptResponse(auth(0))
  {
  }

  /**
   * With retries, a failure without a GError followed by a success yields
   * the authentication result together with the GENERAL error code: the
   * code of the failed pass is never reset.
   */
  lemma LoginAsWrittenKeepsStaleError()
    ensures var auth := (n: nat) => if n == 0 then CallResult(None, None) else CallResult(None, Some([116, 111, 107]));
            var r := LoginAsWritten(auth, Some(2));
            r.response == Some([116, 111, 107, 0]) && r.responseError == ErrorGeneral && r.err.None?
  {
    var auth := (n: nat) => if n == 0 then CallResult(None, None) else CallResult(None, Some([116, 111, 107]));
    var first := LoginPassAsWritten(PluginResponse(None, ErrorNone, None), auth(0));
    assert first == PluginResponse(None, ErrorGeneral, None);
    assert LoginLoopAsWritten(auth, 2, 0, PluginResponse(None, ErrorNone, None)) ==
           LoginLoopAsWritten(auth, 2, 1, first);
    assert auth(1) == CallResult(None, Some([116, 111, 107]));
    assert WithNul([116, 111, 107]) == [116, 111, 107, 0];
    assert LoginLoopAsWritten(auth, 2, 1, first) ==
           PluginResponse(None, ErrorGeneral, Some([116, 111, 107, 0]));
  }

  class SsoNokiaAccountPlugin {
    var accessTokenKey: Option<seq<Byte>>
    var proxy: Option<seq<Byte>>

    /** sso_nokiaaccount_plugin_init: no token and no proxy yet. */
    constructor ()
      ensures accessTokenKey.None? && proxy.None?
    {
      accessTokenKey := None;
      proxy := None;
    }

    /**
     * nokiaaccount_plugin_login with the error code reset on success: the
     * last attempt alone decides the response, every earlier attempt
     * failed without a GError, and the loop stops at the first attempt
     * that succeeds or sets a GError, or after maxRetries attempts.
     */
    method Login(backend: Backend, maxRetries: Option<nat>) returns (response: PluginResponse, tries: nat)
      ensures 1 <= tries
      ensures maxRetries.None? ==> tries == 1
      ensures maxRetries.Some? ==> tries <= if maxRetries.value == 0 then 1 else maxRetries.value
      ensures response == AttemptResponse(backend.authenticateUser(tries - 1))
      ensures forall k :: 0 <= k < tries - 1 ==> RetryWanted(AttemptResponse(backend.authenticateUser(k)))
      ensures maxRetries.Some? && tries < maxRetries.value ==> !RetryWanted(response)
    {
      var limit := if maxRetries.Some? then maxRetries.value else 1;
      tries := 0;
      response := PluginResponse(None, ErrorNone, None);
      while true
        invariant tries == 0 ==> response == PluginResponse(None, ErrorNone, None)
        invariant 0 < tries ==> response == AttemptResponse(backend.authenticateUser(tries - 1))
        invariant 0 < tries ==> tries < limit && RetryWanted(response)
        invariant forall k :: 0 <= k < tries - 1 ==> RetryWanted(AttemptResponse(backend.authenticateUser(k)))
        decreases limit - tries
      {
        var attempt := backend.authenticateUser(tries);
        if attempt.error.None? && attempt.result.Some? {
          response := PluginResponse(None, ErrorNone, Some(WithNul(attempt.result.value)));
        } else {
          var code := if attempt.error.Some? then attempt.error.value.code else ErrorGeneral;
          response := PluginResponse(attempt.error, code, None);
        }
        tries := tries + 1;
        if !(tries < limit && RetryWanted(response)) {
          return;
        }
      }
    }

    /** nokiaaccount_plugin_auth: the stored access token, or an empty string, with NONE. */
    method Auth() returns (response: PluginResponse)
      ensures response.err.None? && response.responseError == ErrorNone
      ensures response.response == Some(WithNul(accessTokenKey.GetOr([])))
    {
      var ba: seq<Byte> := if accessTokenKey.Some? then WithNul(accessTokenKey.value) else [0];
      response := PluginResponse(None, ErrorNone, Some(ba));
    }

    /** nokiaaccount_plugin_logout: a GError gives its code and no data; otherwise an empty string and NONE. */
    method Logout(backend: Backend) returns (response: PluginResponse)
      ensures response.err == backend.deleteToken.error
      ensures backend.deleteToken.error.Some? ==>
                response.responseError == backend.deleteToken.error.value.code && response.response.None?
      ensures backend.deleteToken.error.None? ==>
                response.responseError == ErrorNone && response.response == Some([0])
    {
      var error := backend.deleteToken.error;
      if error.Some? {
        response := PluginResponse(error, error.value.code, None);
      } else {
        response := PluginResponse(None, ErrorNone, Some(WithNul([])));
      }
    }

    /**
     * nokiaaccount_plugin_custom_request.  A setter needs a request; the
     * setters and the no-op answer an empty string, a getter answers its
     * result, and the error code says which step failed.
     */
    method CustomRequest(funcId: int, request: Option<seq<Byte>>, backend: Backend) returns (response: PluginResponse)
      ensures SetBegin < funcId < SetEnd && request.None? ==>
                response == PluginResponse(None, ErrorInvalidParameter, None)
      ensures !(SetBegin < funcId < SetEnd && request.None?) ==>
                response.err == (if funcId == GetTokenInfo then backend.retrieveTokenInfo.error else None) &&
                response.response == (if funcId <= SetEnd then Some([0])
                                      else if funcId == GetTokenInfo && backend.retrieveTokenInfo.result.Some?
                                      then Some(WithNul(backend.retrieveTokenInfo.result.value))
                                      else None)
      ensures funcId == FuncNop ==> response.responseError == ErrorNone
      ensures request.Some? && funcId == SetServerUrl ==>
                response.responseError == (if backend.setUrl(request.value) then ErrorNone else ErrorGeneral)
      ensures request.Some? && funcId == SetConsumerKey ==>
                response.responseError == (if backend.setConsumerKey(request.value) then ErrorNone else ErrorGeneral)
      ensures request.Some? && funcId == SetConsumerSecret ==>
                response.responseError == (if backend.setConsumerSecret(request.value) then ErrorNone else ErrorGeneral)
      ensures funcId <= SetEnd && funcId !in {FuncNop, SetServerUrl, SetConsumerKey, SetConsumerSecret} ==>
                response.responseError == ErrorInvalidCustomFunc
      ensures funcId > SetEnd ==>
                response.responseError ==
                  (if funcId == GetTokenInfo && backend.retrieveTokenInfo.result.Some? then ErrorNone
                   else ErrorNotInitialized)
    {
      response := PluginResponse(None, ErrorNone, None);
      var param: seq<Byte> := [];
      if SetBegin < funcId < SetEnd {
        if request.None? {
          response := response.(responseError := ErrorInvalidParameter);
          return;
        }
        param := request.value;
      }
      var ret := true;
      var resp: Option<seq<Byte>> := None;
      if funcId == FuncNop {
      } else if funcId == SetServerUrl {
        ret := backend.setUrl(param);
      } else if funcId == SetConsumerKey {
        ret := backend.setConsumerKey(param);
      } else if funcId == SetConsumerSecret {
        ret := backend.setConsumerSecret(param);
      } else if funcId == GetTokenInfo {
        resp := backend.retrieveTokenInfo.result;
        response := response.(err := backend.retrieveTokenInfo.error);
      } else {
        response := response.(responseError := ErrorInvalidCustomFunc);
      }
      if !ret {
        response := response.(responseError := ErrorGeneral);
      }
      if funcId > SetEnd {
        if resp.None? {
          response := response.(responseError := ErrorNotInitialized);
        } else {
          response := response.(response := Some(WithNul(resp.value)));
        }
      } else {
        response := response.(response := Some(WithNul([])));
      }
    }

    /** sso_nokiaaccount_plugin_set_proxy: the previous proxy is replaced by a copy of the argument. */
    method SetProxy(newProxy: Option<seq<Byte>>)
      modifies this`proxy
      ensures proxy == newProxy
    {
      proxy := newProxy;
    }
  }
}
