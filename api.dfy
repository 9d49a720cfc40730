/** The token holder and the refresh-on-401 protocol of src/lib/api.ts.

    The module-level variables `accessToken`, `refreshToken`, `isRefreshing`
    and `failedQueue` become the fields of one `ApiClient`. The asynchronous
    interleaving is modelled as a sequence of steps: a failed response reaches
    `HandleResponseError`, and the outcome of the refresh call arrives later as
    `RefreshSucceeded` or `RefreshFailed`. What a step does outside these
    variables (issuing the refresh call, replaying or rejecting a request,
    redirecting to the login page) is returned as a list of `Effect`s. */
module Api {
  import opened Types

  /** Why the refresh failed: no refresh token was held (the `Error` thrown
      before any call), or the refresh call itself was rejected. */
  datatype RefreshError = NoRefreshToken | RefreshRejected(reason: string)

  datatype Effect =
    | RefreshCall(refreshToken: string)         // POST /api/v1/auth/refresh carrying this token
    | Replay(request: nat)                      // `api(originalRequest)`: the request is issued again
    | Reject(request: nat, error: RefreshError) // `reject(err)`: the request's promise is rejected with the refresh error
    | RedirectToLogin                           // `window.location.href = '/login'`

  /** A `failedQueue` entry: the pending promise of one request. */
  datatype Waiter = Waiter(request: nat)

  /** What the response interceptor does with a failed response. */
  datatype Disposition =
    | PassThrough              // rejected with the original error
    | Waiting                  // parked in `failedQueue` until the refresh in flight settles
    | AwaitingRefresh          // started the refresh and awaits its outcome
    | Failed(error: RefreshError) // the refresh could not start; rejected with this error

  /** The `Authorization` value of section 2.1 of RFC 6750: "Bearer", one space, the token. */
  function BearerValue(token: string): (v: string)
    ensures |v| == |token| + 7 && v[..7] == "Bearer " && v[7..] == token
  {
    "Bearer " + token
  }

  /** Reads the token back out of an `Authorization` value. */
  function BearerToken(value: string): Option<string>
  {
    if |value| >= 7 && value[..7] == "Bearer " then Some(value[7..]) else None
  }

  lemma BearerRoundTrip(token: string)
    ensures BearerToken(BearerValue(token)) == Some(token)
  {
  }

  /** How one waiter is settled: resolved (its request is replayed) when
      there is no error, rejected with the error otherwise. */
  function SettleOne(w: Waiter, error: Option<RefreshError>): (e: Effect)
    ensures error.None? ==> e == Replay(w.request)
    ensures error.Some? ==> e == Reject(w.request, error.value)
  {
    if error.None? then Replay(w.request) else Reject(w.request, error.value)
  }

  /** The effects of settling every waiter of `queue`, in queue order. */
  function Settled(queue: seq<Waiter>, error: Option<RefreshError>): (effects: seq<Effect>)
    ensures |effects| == |queue|
    ensures forall i :: 0 <= i < |queue| && error.None? ==> effects[i] == Replay(queue[i].request)
    ensures forall i :: 0 <= i < |queue| && error.Some? ==> effects[i] == Reject(queue[i].request, error.value)
  {
    seq(|queue|, i requires 0 <= i < |queue| => SettleOne(queue[i], error))
  }

  /** Settling is first-in first-out, once per waiter, and one shared outcome
      for all of them: every waiter is replayed when there is no error and
      every waiter is rejected with that error otherwise. */
  lemma SettledUniform(queue: seq<Waiter>, error: Option<RefreshError>)
    ensures |Settled(queue, error)| == |queue|
    ensures forall i :: 0 <= i < |queue| ==>
      Settled(queue, error)[i].request == queue[i].request
    ensures error.None? ==> forall e :: e in Settled(queue, error) ==> e.Replay?
    ensures error.Some? ==> forall e :: e in Settled(queue, error) ==> e == Reject(e.request, error.value)
  {
  }

  class Request {
    const id: nat
    var headers: Option<map<string, string>>
    /** `_retry`: set once the request has started a refresh. */
    var retry: bool

    constructor (id: nat, headers: Option<map<string, string>>)
      ensures this.id == id && this.headers == headers && !retry
    {
      this.id := id;
      this.headers := headers;
      retry := false;
    }
  }

  class ApiClient {
    var accessToken: Option<string>
    var refreshToken: Option<string>
    var isRefreshing: bool
    var failedQueue: seq<Waiter>
    /** The request whose 401 started the refresh in flight, suspended at
        the `await` of the refresh call. */
    var refreshingFor: Option<nat>

    /** The single-flight invariant: a refresh is outstanding exactly when
        `isRefreshing` is set, and waiters exist only while it is. */
    ghost predicate Valid()
      reads this
    {
      && (isRefreshing <==> refreshingFor.Some?)
      && (!isRefreshing ==> failedQueue == [])
    }

    constructor ()
      ensures Valid()
      ensures accessToken == None && refreshToken == None
      ensures !isRefreshing && failedQueue == []
    {
      accessToken, refreshToken := None, None;
      isRefreshing, failedQueue, refreshingFor := false, [], None;
    }

    /** `getAccessToken`: the access token last stored. */
    function GetAccessToken(): (t: Option<string>)
      reads this
      ensures t == accessToken
    {
      accessToken
    }

    /** `getRefreshToken`: the refresh token last stored. */
    function GetRefreshToken(): (t: Option<string>)
      reads this
      ensures t == refreshToken
    {
      refreshToken
    }

    method SetTokens(access: Option<string>, refresh: Option<string>)
      modifies this`accessToken, this`refreshToken
      ensures GetAccessToken() == access && GetRefreshToken() == refresh
    {
      accessToken := access;
      refreshToken := refresh;
    }

    /** The request interceptor: with a non-empty access token and a headers
        object, sets `Authorization` to the bearer value; otherwise leaves the
        headers alone. */
    method AttachCredentials(req: Request)
      modifies req`headers
      ensures Truthy(accessToken) && old(req.headers).Some? ==>
        req.headers == Some(old(req.headers).value["Authorization" := BearerValue(accessToken.value)])
      ensures !(Truthy(accessToken) && old(req.headers).Some?) ==> req.headers == old(req.headers)
    {
      if Truthy(accessToken) && req.headers.Some? {
        req.headers := Some(req.headers.value["Authorization" := BearerValue(accessToken.value)]);
      }
    }

    /** `processQueue(error)`: settles every waiter with the one outcome, in
        queue order, then empties the queue. */
    method ProcessQueue(error: Option<RefreshError>) returns (effects: seq<Effect>)
      modifies this`failedQueue
      ensures failedQueue == []
      ensures effects == Settled(old(failedQueue), error)
    {
      effects := [];
      for i := 0 to |failedQueue|
        invariant effects == Settled(failedQueue[..i], error)
      {
        effects := effects + [SettleOne(failedQueue[i], error)];
      }
      assert failedQueue[..|failedQueue|] == failedQueue;
      failedQueue := [];
    }

    /** The response interceptor's error handler for `req` failing with
        `status` (`None` when no response arrived at all). A response other
        than 401, or a 401 on a request already retried, passes through
        untouched. A 401 while a refresh is in flight joins the queue and
        starts nothing. Otherwise the request is marked retried and exactly
        one refresh call is issued with the refresh token held; without one,
        the failure path runs at once. */
    method HandleResponseError(req: Request, status: Option<int>) returns (disposition: Disposition, effects: seq<Effect>)
      requires Valid()
      modifies this, req`retry
      ensures Valid()
      ensures status != Some(401) || old(req.retry) ==>
        && disposition == PassThrough && effects == []
        && unchanged(this) && req.retry == old(req.retry)
      ensures status == Some(401) && !old(req.retry) && old(isRefreshing) ==>
        && disposition == Waiting && effects == []
        && failedQueue == old(failedQueue) + [Waiter(req.id)]
        && isRefreshing && refreshingFor == old(refreshingFor)
        && accessToken == old(accessToken) && refreshToken == old(refreshToken)
        && !req.retry
      ensures status == Some(401) && !old(req.retry) && !old(isRefreshing) && Truthy(old(refreshToken)) ==>
        && disposition == AwaitingRefresh
        && effects == [RefreshCall(old(refreshToken).value)]
        && req.retry && isRefreshing && refreshingFor == Some(req.id) && failedQueue == []
        && accessToken == old(accessToken) && refreshToken == old(refreshToken)
      ensures status == Some(401) && !old(req.retry) && !old(isRefreshing) && !Truthy(old(refreshToken)) ==>
        && disposition == Failed(NoRefreshToken)
        && effects == [RedirectToLogin]
        && req.retry && !isRefreshing && refreshingFor == None && failedQueue == []
        && accessToken == None && refreshToken == None
    {
      if status != Some(401) || req.retry {
        return PassThrough, [];
      }
      if isRefreshing {
        failedQueue := failedQueue + [Waiter(req.id)];
        return Waiting, [];
      }
      req.retry := true;
      isRefreshing := true;
      if !Truthy(refreshToken) {
        effects := ProcessQueue(Some(NoRefreshToken));
        isRefreshing := false;
        SetTokens(None, None);
        effects := effects + [RedirectToLogin];
        disposition := Failed(NoRefreshToken);
      } else {
        refreshingFor := Some(req.id);
        effects := [RefreshCall(refreshToken.value)];
        disposition := AwaitingRefresh;
      }
    }

    /** The refresh call returned a new token pair: store it, resolve and
        empty the queue, clear the flag, replay the original request once.
        Resolving a waiter only schedules its replay (the `.then` callback
        runs as a microtask), while the original request is re-issued in the
        current job, so the original request is issued first and the
        waiters follow in queue order. */
    method RefreshSucceeded(access: string, refresh: string) returns (effects: seq<Effect>)
      requires Valid() && isRefreshing
      modifies this
      ensures Valid()
      ensures accessToken == Some(access) && refreshToken == Some(refresh)
      ensures !isRefreshing && failedQueue == [] && refreshingFor == None
      ensures effects == [Replay(old(refreshingFor).value)] + Settled(old(failedQueue), None)
    {
      var original := refreshingFor.value;
      SetTokens(Some(access), Some(refresh));
      var resolved := ProcessQueue(None);
      isRefreshing := false;
      refreshingFor := None;
      effects := [Replay(original)] + resolved;
    }

    /** The refresh call was rejected: reject and empty the queue, clear the
        flag, drop both tokens, redirect to the login page, and reject the
        original request with the same error. */
    method RefreshFailed(reason: string) returns (effects: seq<Effect>)
      requires Valid() && isRefreshing
      modifies this
      ensures Valid()
      ensures accessToken == None && refreshToken == None
      ensures !isRefreshing && failedQueue == [] && refreshingFor == None
      ensures effects == Settled(old(failedQueue), Some(RefreshRejected(reason)))
                         + [RedirectToLogin, Reject(old(refreshingFor).value, RefreshRejected(reason))]
    {
      var original := refreshingFor.value;
      effects := ProcessQueue(Some(RefreshRejected(reason)));
      isRefreshing := false;
      refreshingFor := None;
      SetTokens(None, None);
      effects := effects + [RedirectToLogin, Reject(original, RefreshRejected(reason))];
    }
  }

  /** Three requests fail with 401 in the same tick: one refresh call is
      issued, the two latecomers wait, and after the refresh all three are
      replayed carrying the new token: the request that started the refresh
      first, then the waiters in arrival order. */
  method ThreeConcurrentUnauthorized(access: string, refresh: string, newAccess: string, newRefresh: string)
    returns (effects: seq<Effect>, replayedHeaders: seq<Option<map<string, string>>>)
    requires refresh != "" && newAccess != ""
    ensures effects == [RefreshCall(refresh), Replay(1), Replay(2), Replay(3)]
    ensures replayedHeaders == [
      Some(map["Authorization" := BearerValue(newAccess)]),
      Some(map["Authorization" := BearerValue(newAccess)]),
      Some(map["Authorization" := BearerValue(newAccess)])]
  {
    var client := new ApiClient();
    client.SetTokens(Some(access), Some(refresh));
    var r1 := new Request(1, Some(map[]));
    var r2 := new Request(2, Some(map[]));
    var r3 := new Request(3, Some(map[]));
    var d1, e1 := client.HandleResponseError(r1, Some(401));
    var d2, e2 := client.HandleResponseError(r2, Some(401));
    var d3, e3 := client.HandleResponseError(r3, Some(401));
    assert client.failedQueue == [Waiter(2), Waiter(3)];
    var e4 := client.RefreshSucceeded(newAccess, newRefresh);
    assert Settled([Waiter(2), Waiter(3)], None) == [Replay(2), Replay(3)];
    effects := e1 + e2 + e3 + e4;
    client.AttachCredentials(r1);
    client.AttachCredentials(r2);
    client.AttachCredentials(r3);
    replayedHeaders := [r1.headers, r2.headers, r3.headers];
  }

  /** The refresh call fails while two requests wait: both are rejected, the
      tokens are dropped, and the redirect to the login page happens once. */
  method RefreshFailsWithTwoWaiting(access: string, refresh: string, reason: string)
    returns (effects: seq<Effect>, accessAfter: Option<string>, refreshAfter: Option<string>)
    requires refresh != ""
    ensures effects == [RefreshCall(refresh),
                        Reject(2, RefreshRejected(reason)), Reject(3, RefreshRejected(reason)),
                        RedirectToLogin, Reject(1, RefreshRejected(reason))]
    ensures accessAfter == None && refreshAfter == None
  {
    var client := new ApiClient();
    client.SetTokens(Some(access), Some(refresh));
    var r1 := new Request(1, Some(map[]));
    var r2 := new Request(2, Some(map[]));
    var r3 := new Request(3, Some(map[]));
    var d1, e1 := client.HandleResponseError(r1, Some(401));
    var d2, e2 := client.HandleResponseError(r2, Some(401));
    var d3, e3 := client.HandleResponseError(r3, Some(401));
    var e4 := client.RefreshFailed(reason);
    assert Settled([Waiter(2), Waiter(3)], Some(RefreshRejected(reason)))
        == [Reject(2, RefreshRejected(reason)), Reject(3, RefreshRejected(reason))];
    effects := e1 + e2 + e3 + e4;
    accessAfter, refreshAfter := client.GetAccessToken(), client.GetRefreshToken();
  }

  /** A request that already started a refresh and fails with 401 again is
      passed through: no second refresh, no loop. */
  method SecondUnauthorizedPassesThrough(refresh: string, newAccess: string, newRefresh: string)
    returns (first: Disposition, second: Disposition, secondEffects: seq<Effect>)
    requires refresh != ""
    ensures first == AwaitingRefresh && second == PassThrough && secondEffects == []
  {
    var client := new ApiClient();
    client.SetTokens(None, Some(refresh));
    var r := new Request(1, Some(map[]));
    var e1, e2;
    first, e1 := client.HandleResponseError(r, Some(401));
    e2 := client.RefreshSucceeded(newAccess, newRefresh);
    second, secondEffects := client.HandleResponseError(r, Some(401));
  }

  /** The login page stores the refresh token in `localStorage` and never
      calls `SetTokens`, so after a login the client holds no refresh token:
      the first 401 takes the failure path at once. */
  method FirstUnauthorizedAfterLogin() returns (disposition: Disposition, effects: seq<Effect>)
    ensures disposition == Failed(NoRefreshToken) && effects == [RedirectToLogin]
  {
    var client := new ApiClient();
    var r := new Request(1, Some(map[]));
    disposition, effects := client.HandleResponseError(r, Some(401));
  }

  /** A request that waited in the queue is replayed with `_retry` still
      unset, so a second 401 on it starts another refresh: the once-per-request
      limit holds only for the request that started the refresh. */
  method WaiterCanRefreshAgain(refresh: string, newAccess: string, newRefresh: string)
    returns (secondDisposition: Disposition, secondEffects: seq<Effect>)
    requires refresh != "" && newRefresh != ""
    ensures secondDisposition == AwaitingRefresh && secondEffects == [RefreshCall(newRefresh)]
  {
    var client := new ApiClient();
    client.SetTokens(None, Some(refresh));
    var r1 := new Request(1, Some(map[]));
    var r2 := new Request(2, Some(map[]));
    var d1, e1 := client.HandleResponseError(r1, Some(401));
    var d2, e2 := client.HandleResponseError(r2, Some(401));
    var e3 := client.RefreshSucceeded(newAccess, newRefresh);
    secondDisposition, secondEffects := client.HandleResponseError(r2, Some(401));
  }
}
