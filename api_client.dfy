/**
 * The response interceptor of apps/frontend/src/api/client.ts: a request
 * that fails with 401 is marked `_retry`, the session is refreshed, and the
 * request is sent once more; a request already marked is not retried again.
 * `refreshToken()` and the server are not part of this model: their
 * answers are parameters.
 */
module ApiClient {
  import opened Wrappers

  /** `error.response?.status`: `None` when the request got no response at all. */
  datatype HttpError = HttpError(status: Option<int>)

  datatype Response = Success(status: int, body: string) | Failure(error: HttpError)

  /** What the awaited `refreshToken()` does: complete, or throw. */
  datatype RefreshResult = Refreshed | RefreshFailed(reason: string)

  datatype Reason = RequestError(error: HttpError) | RefreshError(reason: string)

  /** How the caller's promise settles. */
  datatype Settlement = Resolved(response: Response) | Rejected(reason: Reason)

  /** The settlement, the `Router.push` target, and how often the interceptor refreshed and re-sent. */
  datatype Observed = Observed(settlement: Settlement, navigation: Option<string>, refreshes: nat, resends: nat)

  const LoginRoute: string := "/login"

  /** The request config object axios hands back with the error; `_retry` is the flag the interceptor sets. */
  class RequestConfig {
    var retry: bool

    constructor ()
      ensures !retry
    {
      retry := false;
    }
  }

  /**
   * What the interceptor does to a request whose `_retry` flag was
   * `retried`, given the first response, what the refresh does, and the
   * response to the one re-send.
   */
  function Expected(retried: bool, first: Response, refresh: RefreshResult, replay: Response): (o: Observed)
    ensures o.refreshes <= 1 && o.resends <= o.refreshes
    ensures o.refreshes == 1 <==> !retried && first == Failure(HttpError(Some(401)))
    ensures first.Success? ==> o == Observed(Resolved(first), None, 0, 0)
    ensures first.Failure? && (retried || first.error.status != Some(401)) ==>
      o == Observed(Rejected(RequestError(first.error)), None, 0, 0)
    ensures o.navigation.Some? <==> o.refreshes == 1 && refresh.RefreshFailed?
    ensures o.navigation.Some? ==> o == Observed(Rejected(RefreshError(refresh.reason)), Some(LoginRoute), 1, 0)
    ensures !retried && first == Failure(HttpError(Some(401))) && refresh.Refreshed? ==>
      o == Observed(if replay.Success? then Resolved(replay) else Rejected(RequestError(replay.error)), None, 1, 1)
  {
    if first.Success? then Observed(Resolved(first), None, 0, 0)
    else if first.error.status != Some(401) || retried then Observed(Rejected(RequestError(first.error)), None, 0, 0)
    else if refresh.RefreshFailed? then Observed(Rejected(RefreshError(refresh.reason)), Some(LoginRoute), 1, 0)
    else if replay.Success? then Observed(Resolved(replay), None, 1, 1)
    else Observed(Rejected(RequestError(replay.error)), None, 1, 1)
  }

  /** A response reaching the interceptor: successes pass through, errors go to `OnRejected`. */
  method OnResponse(config: RequestConfig, response: Response, refresh: RefreshResult, replay: Response) returns (o: Observed)
    modifies config
    decreases if config.retry then 0 else 1, 1
    ensures o == Expected(old(config.retry), response, refresh, replay)
    ensures config.retry == (old(config.retry) || response == Failure(HttpError(Some(401))))
  {
    if response.Success? {
      return Observed(Resolved(response), None, 0, 0);
    }
    o := OnRejected(config, response.error, refresh, replay);
  }

  /** The error handler: the first 401 sets `_retry`, refreshes, and re-sends through the same interceptor. */
  method OnRejected(config: RequestConfig, error: HttpError, refresh: RefreshResult, replay: Response) returns (o: Observed)
    modifies config
    decreases if config.retry then 0 else 1, 0
    ensures o == Expected(old(config.retry), Failure(error), refresh, replay)
    ensures config.retry == (old(config.retry) || error.status == Some(401))
  {
    if error.status == Some(401) && !config.retry {
      config.retry := true;
      if refresh.RefreshFailed? {
        return Observed(Rejected(RefreshError(refresh.reason)), Some(LoginRoute), 1, 0);
      }
      var again := OnResponse(config, replay, refresh, replay);
      return again.(refreshes := again.refreshes + 1, resends := again.resends + 1);
    }
    return Observed(Rejected(RequestError(error)), None, 0, 0);
  }

  /** Every 401 on a request that was already retried is final: no second refresh, no third send. */
  lemma RetriedAtMostOnce(first: Response, refresh: RefreshResult, replay: Response)
    ensures Expected(true, first, refresh, replay).refreshes == 0
    ensures Expected(false, first, refresh, replay).resends <= 1
  {
  }
}
