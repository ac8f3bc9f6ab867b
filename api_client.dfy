/**
 * The two axios interceptors of the web client (restaraunt-frontend/src/services/api.ts):
 * the request interceptor attaches the stored access token, and the response interceptor
 * answers a 401 by refreshing the access token once and replaying the request.
 * `localStorage` is a map from key to text; only the Authorization header of a request is
 * kept; the refresh call is a function from the refresh token sent to what came back; and
 * replaying the request is an outcome, not a network call.
 */
module ApiClient {
  import opened Wrappers
  import Js

  const ACCESS_TOKEN: string := "access_token"
  const REFRESH_TOKEN: string := "refresh_token"
  const USER: string := "user"
  const REGISTER_PATH: string := "/user/register"
  const LOGIN_PATH: string := "/user/login"

  /** The keys logging out removes. */
  const SESSION_KEYS: set<string> := {ACCESS_TOKEN, REFRESH_TOKEN, USER}

  /** The answer to `POST /user/refresh-token`: the `access_token` field of the body, or what was thrown. */
  datatype RefreshOutcome = Refreshed(accessToken: Option<string>) | RefreshFailed(error: string)

  /** Why the error handler's promise rejects. */
  datatype Reason = OriginalError | RefreshError(error: string)

  /** What the error handler does with the request: replay it, or reject. */
  datatype Outcome = Replay | Reject(reason: Reason)

  /** An axios request config: its URL, its Authorization header and the `_retry` mark. */
  class RequestConfig {
    var url: Option<string>
    var authorization: Option<string>
    var retry: bool

    constructor (url: Option<string>, authorization: Option<string>, retry: bool)
      ensures this.url == url && this.authorization == authorization && this.retry == retry
    {
      this.url := url;
      this.authorization := authorization;
      this.retry := retry;
    }
  }

  function Bearer(token: string): string {
    "Bearer " + token
  }

  /** `localStorage.getItem(key)`, which is null for a missing key; `Some("")` is falsy too. */
  function Get(storage: map<string, string>, key: string): Option<string> {
    if key in storage then Some(storage[key]) else None
  }

  predicate IsTruthy(v: Option<string>) {
    v.Some? && v.value != ""
  }

  /** The Authorization header after the request interceptor. */
  function Attach(storage: map<string, string>, authorization: Option<string>): Option<string> {
    var token := Get(storage, ACCESS_TOKEN);
    if IsTruthy(token) then Some(Bearer(token.value)) else authorization
  }

  /** The header is set exactly when a non-empty access token is stored, and then carries it. */
  lemma AttachCases(storage: map<string, string>, authorization: Option<string>)
    ensures ACCESS_TOKEN in storage && storage[ACCESS_TOKEN] != "" ==>
      Attach(storage, authorization) == Some("Bearer " + storage[ACCESS_TOKEN])
    ensures !(ACCESS_TOKEN in storage && storage[ACCESS_TOKEN] != "") ==> Attach(storage, authorization) == authorization
  {
  }

  /** `url?.includes('/user/register') || url?.includes('/user/login')`. */
  predicate IsAuthEndpoint(url: Option<string>) {
    url.Some? && (Js.Includes(url.value, REGISTER_PATH) || Js.Includes(url.value, LOGIN_PATH))
  }

  /** Whether the error handler tries to refresh at all. */
  predicate Qualifies(status: Option<int>, retry: bool, url: Option<string>) {
    status == Some(401) && !retry && !IsAuthEndpoint(url)
  }

  /** What the error handler leaves behind: storage, the request's header and mark, and the outcome. */
  datatype After = After(storage: map<string, string>, authorization: Option<string>, retry: bool, outcome: Outcome)

  /** The response error handler, as a function of everything it reads. */
  function HandleError(storage: map<string, string>, url: Option<string>, authorization: Option<string>, retry: bool,
                       status: Option<int>, refresh: string -> RefreshOutcome): After
  {
    if !Qualifies(status, retry, url) then After(storage, authorization, retry, Reject(OriginalError))
    else
      var refreshToken := Get(storage, REFRESH_TOKEN);
      if !IsTruthy(refreshToken) then After(storage - SESSION_KEYS, authorization, true, Reject(OriginalError))
      else match refresh(refreshToken.value)
        case RefreshFailed(e) => After(storage - SESSION_KEYS, authorization, true, Reject(RefreshError(e)))
        case Refreshed(accessToken) =>
          var stored := if accessToken.Some? then accessToken.value else "undefined";
          After(storage[ACCESS_TOKEN := stored], Some(Bearer(stored)), true, Replay)
  }

  /** The browser's storage and the two interceptors. */
  class Client {
    var storage: map<string, string>

    constructor (storage: map<string, string>)
      ensures this.storage == storage
    {
      this.storage := storage;
    }

    /** The request interceptor: sets the header from the stored access token, if any. */
    method OnRequest(config: RequestConfig)
      modifies config`authorization
      ensures config.authorization == Attach(storage, old(config.authorization))
    {
      var token := Get(storage, ACCESS_TOKEN);
      if token.Some? && token.value != "" {
        config.authorization := Some(Bearer(token.value));
      }
    }

    /** The response interceptor's error handler. */
    method OnResponseError(config: RequestConfig, status: Option<int>, refresh: string -> RefreshOutcome)
      returns (outcome: Outcome)
      modifies this`storage, config`authorization, config`retry
      ensures var a := HandleError(old(storage), config.url, old(config.authorization), old(config.retry), status, refresh);
        storage == a.storage && config.authorization == a.authorization && config.retry == a.retry && outcome == a.outcome
    {
      var isAuthEndpoint := config.url.Some? &&
        (Js.Includes(config.url.value, REGISTER_PATH) || Js.Includes(config.url.value, LOGIN_PATH));
      if status == Some(401) && !config.retry && !isAuthEndpoint {
        config.retry := true;
        var refreshToken := Get(storage, REFRESH_TOKEN);
        if refreshToken.Some? && refreshToken.value != "" {
          var response := refresh(refreshToken.value);
          if response.Refreshed? {
            var accessToken := if response.accessToken.Some? then response.accessToken.value else "undefined";
            storage := storage[ACCESS_TOKEN := accessToken];
            config.authorization := Some(Bearer(accessToken));
            return Replay;
          } else {
            storage := storage - {ACCESS_TOKEN};
            storage := storage - {REFRESH_TOKEN};
            storage := storage - {USER};
            return Reject(RefreshError(response.error));
          }
        } else {
          storage := storage - {ACCESS_TOKEN};
          storage := storage - {REFRESH_TOKEN};
          storage := storage - {USER};
        }
      }
      return Reject(OriginalError);
    }
  }

  /**
   * A refresh is attempted exactly for a 401 on a request not yet retried, outside register
   * and login, while a refresh token is stored; every other error is rejected as it came,
   * with storage and request untouched unless it qualified.
   */
  lemma RefreshAttemptedOnlyWhenQualified(storage: map<string, string>, url: Option<string>, authorization: Option<string>,
                                          retry: bool, status: Option<int>, refresh: string -> RefreshOutcome)
    ensures var a := HandleError(storage, url, authorization, retry, status, refresh);
      && (a.outcome != Reject(OriginalError) <==> Qualifies(status, retry, url) && IsTruthy(Get(storage, REFRESH_TOKEN)))
      && (!Qualifies(status, retry, url) ==> a == After(storage, authorization, retry, Reject(OriginalError)))
      && (Qualifies(status, retry, url) ==> a.retry)
  {
  }

  /** Errors from register and login are never answered by a refresh, whatever their status. */
  lemma AuthEndpointsNeverRefresh(storage: map<string, string>, rest: string, authorization: Option<string>,
                                  retry: bool, status: Option<int>, refresh: string -> RefreshOutcome)
    ensures HandleError(storage, Some(LOGIN_PATH + rest), authorization, retry, status, refresh).outcome == Reject(OriginalError)
    ensures HandleError(storage, Some(REGISTER_PATH + rest), authorization, retry, status, refresh).outcome == Reject(OriginalError)
  {
    assert Js.OccursAt(LOGIN_PATH + rest, LOGIN_PATH, 0);
    assert Js.OccursAt(REGISTER_PATH + rest, REGISTER_PATH, 0);
  }

  /**
   * A request is replayed at most once: if the replay fails again, the handler sees the mark
   * it set and rejects without refreshing or touching storage.
   */
  lemma AtMostOneReplay(storage: map<string, string>, url: Option<string>, authorization: Option<string>, retry: bool,
                        status: Option<int>, refresh: string -> RefreshOutcome, status2: Option<int>)
    ensures var a := HandleError(storage, url, authorization, retry, status, refresh);
      a.outcome == Replay ==>
        HandleError(a.storage, url, a.authorization, a.retry, status2, refresh)
          == After(a.storage, a.authorization, a.retry, Reject(OriginalError))
  {
  }

  /**
   * The request is replayed exactly when a qualifying error found a refresh token and the
   * refresh answered; the token it answered with is then stored, the replayed request
   * carries it, and the request interceptor, which runs again on the replay, keeps that
   * header.
   */
  lemma ReplayCarriesNewToken(storage: map<string, string>, url: Option<string>, authorization: Option<string>,
                              retry: bool, status: Option<int>, refresh: string -> RefreshOutcome)
    ensures var a := HandleError(storage, url, authorization, retry, status, refresh);
      a.outcome == Replay <==>
        Qualifies(status, retry, url) && IsTruthy(Get(storage, REFRESH_TOKEN)) && refresh(storage[REFRESH_TOKEN]).Refreshed?
    ensures var a := HandleError(storage, url, authorization, retry, status, refresh);
      Qualifies(status, retry, url) && IsTruthy(Get(storage, REFRESH_TOKEN)) &&
      refresh(storage[REFRESH_TOKEN]).Refreshed? && refresh(storage[REFRESH_TOKEN]).accessToken.Some? ==>
        var t := refresh(storage[REFRESH_TOKEN]).accessToken.value;
        a == After(storage[ACCESS_TOKEN := t], Some(Bearer(t)), true, Replay)
    ensures var a := HandleError(storage, url, authorization, retry, status, refresh);
      a.outcome == Replay ==>
        && ACCESS_TOKEN in a.storage
        && a.authorization == Some("Bearer " + a.storage[ACCESS_TOKEN])
        && Attach(a.storage, a.authorization) == a.authorization
        && a.storage - {ACCESS_TOKEN} == storage - {ACCESS_TOKEN}
  {
  }

  /**
   * A refresh answer without an `access_token` field stores the text "undefined" and
   * replays with "Bearer undefined".
   */
  lemma MissingFieldStoresUndefined(storage: map<string, string>, url: Option<string>, authorization: Option<string>,
                                    refresh: string -> RefreshOutcome)
    requires !IsAuthEndpoint(url) && IsTruthy(Get(storage, REFRESH_TOKEN))
    requires refresh(storage[REFRESH_TOKEN]) == Refreshed(None)
    ensures var a := HandleError(storage, url, authorization, false, Some(401), refresh);
      a.outcome == Replay && a.storage[ACCESS_TOKEN] == "undefined" && a.authorization == Some("Bearer undefined")
  {
    assert Bearer("undefined") == "Bearer undefined";
  }

  /**
   * When a qualifying error finds no refresh token, or the refresh fails, exactly the three
   * session keys are removed and every other key is kept; a failed refresh rejects with the
   * error it answered, a missing token with the original one.
   */
  lemma LogoutClearsSession(storage: map<string, string>, url: Option<string>, authorization: Option<string>,
                            retry: bool, status: Option<int>, refresh: string -> RefreshOutcome)
    ensures var a := HandleError(storage, url, authorization, retry, status, refresh);
      Qualifies(status, retry, url) && IsTruthy(Get(storage, REFRESH_TOKEN)) && refresh(storage[REFRESH_TOKEN]).RefreshFailed? ==>
        a == After(storage - SESSION_KEYS, authorization, true, Reject(RefreshError(refresh(storage[REFRESH_TOKEN]).error)))
    ensures var a := HandleError(storage, url, authorization, retry, status, refresh);
      Qualifies(status, retry, url) &&
      (!IsTruthy(Get(storage, REFRESH_TOKEN)) || refresh(storage[REFRESH_TOKEN]).RefreshFailed?) ==>
        && a.storage == storage - SESSION_KEYS
        && (forall k :: k in storage && k !in SESSION_KEYS ==> k in a.storage && a.storage[k] == storage[k])
        && (forall k :: k in SESSION_KEYS ==> k !in a.storage)
        && (a.outcome == Reject(OriginalError) <==> !IsTruthy(Get(storage, REFRESH_TOKEN)))
        && (a.outcome.reason.RefreshError? ==> refresh(storage[REFRESH_TOKEN]) == RefreshFailed(a.outcome.reason.error))
  {
  }
}
