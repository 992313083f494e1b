/**
 * The axios instance of `services/api/axios.ts`: a request interceptor that
 * sets the Authorization and Content-Type headers, and a response interceptor
 * that refreshes the token and replays a request once on 401, sends the
 * browser to /login on 403 or a failed refresh, and rewrites network errors.
 */
module HttpClient {
  import opened Wrappers
  import opened Storage

  /** The request body: `FormData` or anything else. */
  datatype Body = FormData | OtherBody

  /** What the server (or the network) answers to one attempt. */
  datatype Reply = Answered(status: int) | Unanswered(code: string)

  /** axios resolves 2xx answers and rejects everything else. */
  predicate Succeeds(r: Reply) {
    r.Answered? && 200 <= r.status < 300
  }

  /** What `POST /auth/refresh` does: answer with `data.token` (possibly missing), or fail. */
  datatype RefreshOutcome = NewToken(token: Option<string>) | RefreshRejected

  const NetworkMessage: string := "Network Error - Unable to connect to the server"

  /** Why a request was rejected: its own error, the refresh error, or the rewritten network error. */
  datatype Reason = Original(reply: Reply) | RefreshError | Message(text: string)

  /** What the response interceptor does with an error. */
  datatype Decision = Replay | Reject(reason: Reason)

  /** One pass of the response interceptor, as a value. */
  datatype ErrorStep = ErrorStep(decision: Decision, store: Store, retry: bool, redirect: bool)

  /** The response interceptor's error handler, for an error `reply` on a request whose `_retry` flag is `retry`. */
  function HandleError(reply: Reply, retry: bool, s: Store, refresh: RefreshOutcome): (r: ErrorStep)
    ensures r.retry == (retry || (reply.Answered? && reply.status == 401))
    ensures r.decision.Replay? ==> !retry && reply == Answered(401)
  {
    if reply.Answered? && reply.status == 401 && !retry && Truthy(s.refreshToken) then
      match refresh
      case NewToken(t) => ErrorStep(Replay, s.(authToken := Some(StringOf(t))), true, false)
      case RefreshRejected => ErrorStep(Reject(RefreshError), s.(authToken := None, refreshToken := None), true, true)
    else
      var retry' := retry || (reply.Answered? && reply.status == 401);
      if reply.Answered? && reply.status == 403 then ErrorStep(Reject(Original(reply)), s, retry', true)
      else if reply.Unanswered? && reply.code == "ERR_NETWORK" then ErrorStep(Reject(Message(NetworkMessage)), s, retry', false)
      else ErrorStep(Reject(Original(reply)), s, retry', false)
  }

  /** The per-request config the interceptors mutate. */
  class RequestConfig {
    var headers: map<string, string>
    var retry: bool
    const body: Body

    constructor (body0: Body, headers0: map<string, string>)
      ensures body == body0 && headers == headers0 && !retry
    {
      body := body0;
      headers := headers0;
      retry := false;
    }
  }

  /** The outcome of a whole request as its caller sees it. */
  datatype Outcome = Resolved(reply: Reply) | Rejected(reason: Reason)

  class Client {
    const ls: LocalStorage
    /** Whether `window.location.href` has been set to /login. */
    var redirected: bool

    constructor (storage: LocalStorage)
      ensures ls == storage && !redirected
    {
      ls := storage;
      redirected := false;
    }

    /** The request interceptor. */
    method InterceptRequest(config: RequestConfig)
      modifies config`headers
      ensures var withAuth := if Truthy(ls.data.authToken) then old(config.headers)["Authorization" := "Bearer " + ls.data.authToken.value] else old(config.headers);
        config.headers == withAuth["Content-Type" := if config.body.FormData? then "multipart/form-data" else "application/json"]
    {
      var token := ls.data.authToken;
      if Truthy(token) {
        config.headers := config.headers["Authorization" := "Bearer " + token.value];
      }
      if config.body.FormData? {
        config.headers := config.headers["Content-Type" := "multipart/form-data"];
      } else {
        config.headers := config.headers["Content-Type" := "application/json"];
      }
    }

    /** The response interceptor's error handler. */
    method InterceptError(reply: Reply, config: RequestConfig, refresh: RefreshOutcome) returns (d: Decision)
      modifies this, ls, config`retry, config`headers
      ensures var step := HandleError(reply, old(config.retry), old(ls.data), refresh);
        d == step.decision && ls.data == step.store && config.retry == step.retry &&
        redirected == (old(redirected) || step.redirect)
      ensures d.Replay? ==> config.headers == old(config.headers)["Authorization" := "Bearer " + ls.data.authToken.value]
      ensures d.Reject? ==> config.headers == old(config.headers)
    {
      if reply.Answered? && reply.status == 401 && !config.retry {
        config.retry := true;
        if Truthy(ls.data.refreshToken) {
          match refresh {
            case NewToken(t) =>
              var token := StringOf(t);
              ls.data := ls.data.(authToken := Some(token));
              config.headers := config.headers["Authorization" := "Bearer " + token];
              return Replay;
            case RefreshRejected =>
              ls.data := ls.data.(authToken := None);
              ls.data := ls.data.(refreshToken := None);
              redirected := true;
              return Reject(RefreshError);
          }
        }
      }
      if reply.Answered? && reply.status == 403 {
        redirected := true;
      } else if reply.Unanswered? && reply.code == "ERR_NETWORK" {
        return Reject(Message(NetworkMessage));
      }
      return Reject(Original(reply));
    }

    /**
     * A whole request: the first attempt answers `first`; if the interceptor
     * replays it, the replay goes through both interceptors again and
     * answers `second`.
     */
    method Send(config: RequestConfig, first: Reply, second: Reply, refresh: RefreshOutcome) returns (outcome: Outcome, attempts: nat)
      modifies this, ls, config`retry, config`headers
      ensures 1 <= attempts <= 2
      ensures attempts == 2 <==>
        !Succeeds(first) && HandleError(first, old(config.retry), old(ls.data), refresh).decision.Replay?
      ensures attempts == 1 && Succeeds(first) ==>
        outcome == Resolved(first) && ls.data == old(ls.data) && redirected == old(redirected)
      ensures var step := HandleError(first, old(config.retry), old(ls.data), refresh);
        attempts == 1 && !Succeeds(first) ==>
          outcome == Rejected(step.decision.reason) && ls.data == step.store &&
          redirected == (old(redirected) || step.redirect)
      ensures var step := HandleError(first, old(config.retry), old(ls.data), refresh);
        attempts == 2 && Succeeds(second) ==>
          outcome == Resolved(second) && ls.data == step.store && redirected == old(redirected)
      ensures var step := HandleError(first, old(config.retry), old(ls.data), refresh);
        var again := HandleError(second, true, step.store, refresh);
        attempts == 2 && !Succeeds(second) ==>
          outcome == Rejected(again.decision.reason) && ls.data == again.store &&
          redirected == (old(redirected) || again.redirect) && config.retry
    {
      InterceptRequest(config);
      attempts := 1;
      if Succeeds(first) {
        return Resolved(first), attempts;
      }
      var d := InterceptError(first, config, refresh);
      if d.Reject? {
        return Rejected(d.reason), attempts;
      }
      InterceptRequest(config);
      attempts := 2;
      if Succeeds(second) {
        return Resolved(second), attempts;
      }
      d := InterceptError(second, config, refresh);
      // `_retry` is now set, so the second error is never replayed.
      outcome := Rejected(d.reason);
    }
  }

  // -------------------------------------------------------------- lemmas

  /** A request whose `_retry` flag is set is never replayed: at most one retry. */
  lemma RetriedIsNeverReplayed(reply: Reply, s: Store, refresh: RefreshOutcome)
    ensures HandleError(reply, true, s, refresh).decision.Reject?
    ensures HandleError(reply, true, s, refresh).store == s
  {
  }

  /** A first 401 with a refresh token and a successful refresh replays, storing the new token. */
  lemma RefreshReplays(s: Store, token: string)
    requires Truthy(s.refreshToken)
    ensures var step := HandleError(Answered(401), false, s, NewToken(Some(token)));
      step.decision == Replay && step.store == s.(authToken := Some(token)) && step.retry && !step.redirect
  {
  }

  /** A failed refresh clears both tokens, redirects and rejects with the refresh error. */
  lemma FailedRefreshLogsOut(s: Store)
    requires Truthy(s.refreshToken)
    ensures var step := HandleError(Answered(401), false, s, RefreshRejected);
      step.decision == Reject(RefreshError) && step.store.authToken.None? && step.store.refreshToken.None? && step.redirect
  {
  }

  /** A 401 without a refresh token falls through: marked as retried, rejected with itself, no redirect. */
  lemma UnrefreshableRejects(s: Store, retry: bool, refresh: RefreshOutcome)
    requires !Truthy(s.refreshToken)
    ensures HandleError(Answered(401), retry, s, refresh) == ErrorStep(Reject(Original(Answered(401))), s, true, false)
  {
  }

  /** A 403 always redirects to the login page and still rejects with the original error. */
  lemma ForbiddenRedirects(retry: bool, s: Store, refresh: RefreshOutcome)
    ensures HandleError(Answered(403), retry, s, refresh) == ErrorStep(Reject(Original(Answered(403))), s, retry, true)
  {
  }

  /** An unanswered request never redirects or touches storage; it gets the fixed message exactly when its code is `ERR_NETWORK`. */
  lemma NetworkErrorRewritten(code: string, retry: bool, s: Store, refresh: RefreshOutcome)
    ensures var step := HandleError(Unanswered(code), retry, s, refresh);
      !step.redirect && step.store == s &&
      (step.decision == Reject(Message(NetworkMessage)) <==> code == "ERR_NETWORK")
  {
  }

  /** The interceptor changes storage only on a first 401 with a refresh token. */
  lemma StorageChangesOnlyOnRefresh(reply: Reply, retry: bool, s: Store, refresh: RefreshOutcome)
    requires HandleError(reply, retry, s, refresh).store != s
    ensures reply == Answered(401) && !retry && Truthy(s.refreshToken)
  {
  }
}
