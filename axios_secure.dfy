/**
 * The authenticated HTTP client's interceptors: the request interceptor that
 * copies the `accessToken` cookie into the `Authorization` header, and the
 * response interceptor that recovers from a 401 by a single-flight token
 * refresh while every other 401 that arrives in the meantime waits in a queue.
 *
 * The asynchronous flow is driven by explicit events: a request's error
 * response (`OnResponseError`), and the two ways the refresh call can settle
 * (`OnRefreshSucceeded`, `OnRefreshFailed`). The network is the caller of
 * these events; replaying a released request is the caller's business too.
 */
module AxiosSecure {
  import opened Wrappers
  import opened Browser

  /** `cookieOptions.expires`: a refreshed access token lives for 7 days. */
  const RefreshedTokenDays: nat := 7
  /** Where a failed refresh sends the user. */
  const LoginPath := "/"

  datatype Error =
    | ResponseError(status: Option<int>)  // the request's own error, passed on as received
    | NoRefreshToken                      // `new Error("No refresh token")`
    | RefreshFailed(reason: string)       // whatever the refresh call threw

  /** How `processQueue` settles one waiter: resolved with the token or rejected with the error. */
  datatype Release = Resolve(token: string) | Reject(error: Error)

  /** Externally observable effects, in the order the client performs them. */
  datatype Effect =
    | RefreshPosted(refreshToken: string)  // POST /auth/refresh-token { refreshToken }
    | CookieWritten(name: string, value: string, expiresDays: nat)
    | CookieRemoved(name: string)
    | Released(request: nat, release: Release)
    | Navigated(target: string)

  /** What the response interceptor hands back to the caller of the failed request. */
  datatype Outcome =
    | Pending                                 // the caller's promise is still waiting
    | Retried(request: nat, authorization: string)  // `axiosSecure(originalRequest)` with the new token
    | Rejected(error: Error)

  /** The part of an axios request config the interceptors read and write. */
  class RequestConfig {
    const id: nat
    var authorization: Option<string>
    var retry: bool

    constructor (id: nat)
      ensures this.id == id && authorization == None && !retry
    {
      this.id := id;
      authorization := None;
      retry := false;
    }
  }

  /** The effects of `failedQueue.forEach(...)`: one release per waiter, front to back. */
  function Releases(queue: seq<RequestConfig>, release: Release): seq<Effect>
  {
    if queue == [] then [] else [Released(queue[0].id, release)] + Releases(queue[1..], release)
  }

  /** FIFO: the i-th release settles the i-th waiter, and every waiter gets the same release. */
  lemma {:induction false} ReleasesInOrder(queue: seq<RequestConfig>, release: Release)
    ensures |Releases(queue, release)| == |queue|
    ensures forall i :: 0 <= i < |queue| ==> Releases(queue, release)[i] == Released(queue[i].id, release)
  {
    if queue != [] {
      ReleasesInOrder(queue[1..], release);
    }
  }

  lemma {:induction false} ReleasesAppend(a: seq<RequestConfig>, b: seq<RequestConfig>, release: Release)
    ensures Releases(a + b, release) == Releases(a, release) + Releases(b, release)
  {
    if a == [] {
      assert a + b == b;
    } else {
      assert (a + b)[0] == a[0] && (a + b)[1..] == a[1..] + b;
      ReleasesAppend(a[1..], b, release);
    }
  }

  /** The number of calls made to the refresh endpoint. */
  function RefreshPosts(effects: seq<Effect>): nat
  {
    if effects == [] then 0
    else (if effects[0].RefreshPosted? then 1 else 0) + RefreshPosts(effects[1..])
  }

  lemma {:induction false} RefreshPostsAppend(a: seq<Effect>, b: seq<Effect>)
    ensures RefreshPosts(a + b) == RefreshPosts(a) + RefreshPosts(b)
  {
    if a == [] {
      assert a + b == b;
    } else {
      assert (a + b)[0] == a[0] && (a + b)[1..] == a[1..] + b;
      RefreshPostsAppend(a[1..], b);
    }
  }

  /** Effects that are not refresh calls add no refresh calls. */
  lemma {:induction false} NoRefreshPosts(effects: seq<Effect>)
    requires forall i :: 0 <= i < |effects| ==> !effects[i].RefreshPosted?
    ensures RefreshPosts(effects) == 0
  {
    if effects != [] {
      NoRefreshPosts(effects[1..]);
    }
  }

  /** Releasing the queue never calls the refresh endpoint. */
  lemma {:induction false} ReleasesPostNothing(queue: seq<RequestConfig>, release: Release)
    ensures RefreshPosts(Releases(queue, release)) == 0
  {
    if queue != [] {
      ReleasesPostNothing(queue[1..], release);
      RefreshPostsAppend([Released(queue[0].id, release)], Releases(queue[1..], release));
    }
  }

  /**
   * The header value the request interceptor attaches: the raw `accessToken`
   * cookie when it is present and non-empty (no "Bearer " scheme as in
   * section 2.1 of RFC 6750), nothing otherwise.
   */
  function AuthorizationHeader(cookies: map<string, Cookie>): (h: Option<string>)
    ensures h.Some? <==> AccessTokenKey in cookies && cookies[AccessTokenKey].value != ""
    ensures h.Some? ==> h.value == cookies[AccessTokenKey].value
  {
    var token := CookieValue(cookies, AccessTokenKey);
    if token.Some? && token.value != "" then token else None
  }

  /** The refresh token the interceptor would send, if the cookie is present and non-empty. */
  function UsableRefreshToken(cookies: map<string, Cookie>): (t: Option<string>)
    ensures t.Some? <==> RefreshTokenKey in cookies && cookies[RefreshTokenKey].value != ""
    ensures t.Some? ==> t.value == cookies[RefreshTokenKey].value
  {
    var token := CookieValue(cookies, RefreshTokenKey);
    if token.Some? && token.value != "" then token else None
  }

  /** The module-level refresh state (`isRefreshing`, `failedQueue`) and the instance that owns it. */
  class SecureClient {
    const window: Window
    const production: bool
    var isRefreshing: bool
    var failedQueue: seq<RequestConfig>
    /** The request whose 401 started the refresh that is in flight. */
    var pending: Option<RequestConfig>
    var effects: seq<Effect>
    /** How many refresh calls have settled. */
    ghost var settled: nat

    /**
     * Single flight: a refresh call is outstanding exactly while `isRefreshing`,
     * and there is never more than one; the queue is empty whenever no refresh is in flight.
     */
    ghost predicate Valid()
      reads this
    {
      && (isRefreshing <==> pending.Some?)
      && (!isRefreshing ==> failedQueue == [])
      && RefreshPosts(effects) == settled + (if isRefreshing then 1 else 0)
    }

    constructor (window: Window, production: bool)
      ensures Valid()
      ensures this.window == window && this.production == production
      ensures !isRefreshing && failedQueue == [] && pending == None && effects == []
    {
      this.window := window;
      this.production := production;
      isRefreshing := false;
      failedQueue := [];
      pending := None;
      effects := [];
      settled := 0;
    }

    /** The request interceptor. */
    method AttachToken(config: RequestConfig)
      modifies config
      ensures config.authorization ==
        (if AuthorizationHeader(window.cookies).Some? then AuthorizationHeader(window.cookies)
         else old(config.authorization))
      ensures config.retry == old(config.retry)
    {
      var token := CookieValue(window.cookies, AccessTokenKey);
      if token.Some? && token.value != "" {
        config.authorization := token;
      }
    }

    /** `processQueue`: settle every waiter in queue order, then empty the queue. */
    method ProcessQueue(release: Release)
      modifies this
      ensures effects == old(effects) + Releases(old(failedQueue), release)
      ensures failedQueue == []
      ensures isRefreshing == old(isRefreshing) && pending == old(pending) && settled == old(settled)
    {
      var i := 0;
      while i < |failedQueue|
        invariant 0 <= i <= |failedQueue|
        invariant failedQueue == old(failedQueue)
        invariant effects == old(effects) + Releases(failedQueue[..i], release)
        invariant isRefreshing == old(isRefreshing) && pending == old(pending) && settled == old(settled)
      {
        assert failedQueue[..i + 1] == failedQueue[..i] + [failedQueue[i]];
        ReleasesAppend(failedQueue[..i], [failedQueue[i]], release);
        effects := effects + [Released(failedQueue[i].id, release)];
        i := i + 1;
      }
      assert failedQueue[..i] == failedQueue;
      failedQueue := [];
    }

    /** The `catch` and `finally` blocks: reject every waiter, clear both cookies, go to "/". */
    method FailRefresh(error: Error) returns (out: Outcome)
      modifies this, window
      ensures out == Rejected(error)
      ensures effects == old(effects) + Releases(old(failedQueue), Reject(error))
                         + [CookieRemoved(AccessTokenKey), CookieRemoved(RefreshTokenKey), Navigated(LoginPath)]
      ensures window.cookies == old(window.cookies) - {AccessTokenKey, RefreshTokenKey}
      ensures window.href == LoginPath
      ensures !isRefreshing && failedQueue == [] && pending == old(pending) && settled == old(settled)
    {
      ProcessQueue(Reject(error));
      window.RemoveCookie(AccessTokenKey);
      window.RemoveCookie(RefreshTokenKey);
      window.Navigate(LoginPath);
      effects := effects + [CookieRemoved(AccessTokenKey), CookieRemoved(RefreshTokenKey), Navigated(LoginPath)];
      out := Rejected(error);
      isRefreshing := false;
      assert window.cookies == old(window.cookies) - {AccessTokenKey} - {RefreshTokenKey};
    }

    /** The response interceptor's error handler, for an error with the given HTTP status. */
    method OnResponseError(req: RequestConfig, status: Option<int>) returns (out: Outcome)
      requires Valid()
      modifies this, window, req
      ensures Valid()
      // anything but a first 401 is passed on untouched
      ensures status != Some(401) || old(req.retry) ==>
        && out == Rejected(ResponseError(status))
        && isRefreshing == old(isRefreshing) && failedQueue == old(failedQueue)
        && pending == old(pending) && effects == old(effects)
        && req.retry == old(req.retry) && req.authorization == old(req.authorization)
        && window.cookies == old(window.cookies) && window.href == old(window.href)
      // while a refresh is in flight: join the queue, start nothing
      ensures status == Some(401) && !old(req.retry) && old(isRefreshing) ==>
        && out == Pending
        && failedQueue == old(failedQueue) + [req]
        && isRefreshing && pending == old(pending) && effects == old(effects)
        && !req.retry && req.authorization == old(req.authorization)
        && window.cookies == old(window.cookies) && window.href == old(window.href)
      // idle: mark the request and start the one refresh, or fail at once without a refresh token
      ensures status == Some(401) && !old(req.retry) && !old(isRefreshing) ==>
        && req.retry && req.authorization == old(req.authorization)
        && failedQueue == []
        && var token := UsableRefreshToken(old(window.cookies));
           if token.Some? then
             && out == Pending
             && isRefreshing && pending == Some(req)
             && effects == old(effects) + [RefreshPosted(token.value)]
             && window.cookies == old(window.cookies) && window.href == old(window.href)
           else
             && out == Rejected(NoRefreshToken)
             && !isRefreshing && pending == None
             && effects == old(effects) + [CookieRemoved(AccessTokenKey), CookieRemoved(RefreshTokenKey), Navigated(LoginPath)]
             && window.cookies == old(window.cookies) - {AccessTokenKey, RefreshTokenKey}
             && window.href == LoginPath
    {
      if status == Some(401) && !req.retry {
        if isRefreshing {
          failedQueue := failedQueue + [req];
          out := Pending;
          return;
        }
        req.retry := true;
        isRefreshing := true;
        var refreshToken := CookieValue(window.cookies, RefreshTokenKey);
        if refreshToken.None? || refreshToken.value == "" {
          ghost var before := effects;
          out := FailRefresh(NoRefreshToken);
          assert Releases([], Reject(NoRefreshToken)) == [];
          assert effects == before + [CookieRemoved(AccessTokenKey), CookieRemoved(RefreshTokenKey), Navigated(LoginPath)];
          RefreshPostsAppend(before, [CookieRemoved(AccessTokenKey), CookieRemoved(RefreshTokenKey), Navigated(LoginPath)]);
          NoRefreshPosts([CookieRemoved(AccessTokenKey), CookieRemoved(RefreshTokenKey), Navigated(LoginPath)]);
          return;
        }
        RefreshPostsAppend(effects, [RefreshPosted(refreshToken.value)]);
        effects := effects + [RefreshPosted(refreshToken.value)];
        pending := Some(req);
        out := Pending;
        return;
      }
      out := Rejected(ResponseError(status));
    }

    /** The refresh call returned `{ data: { accessToken } }`. */
    method OnRefreshSucceeded(accessToken: string) returns (out: Outcome)
      requires Valid() && isRefreshing
      modifies this, window, pending.value
      ensures Valid()
      ensures !isRefreshing && failedQueue == [] && pending == None
      // the cookie is written before any waiter is released, and the waiters are released in order
      ensures effects == old(effects) + [CookieWritten(AccessTokenKey, accessToken, RefreshedTokenDays)]
                         + Releases(old(failedQueue), Resolve(accessToken))
      ensures window.cookies == old(window.cookies)[AccessTokenKey := Cookie(accessToken, RefreshedTokenDays, production, true)]
      ensures window.href == old(window.href)
      ensures old(pending).value.authorization == Some(accessToken)
      ensures old(pending).value.retry == old(pending.value.retry)
      ensures out == Retried(old(pending).value.id, accessToken)
    {
      var original := pending.value;
      ghost var queue := failedQueue;
      window.SetCookie(AccessTokenKey, accessToken, RefreshedTokenDays, production);
      effects := effects + [CookieWritten(AccessTokenKey, accessToken, RefreshedTokenDays)];
      original.authorization := Some(accessToken);
      ghost var before := effects;
      ProcessQueue(Resolve(accessToken));
      out := Retried(original.id, accessToken);
      isRefreshing := false;
      pending := None;
      settled := settled + 1;
      RefreshPostsAppend(old(effects), [CookieWritten(AccessTokenKey, accessToken, RefreshedTokenDays)]);
      RefreshPostsAppend(before, Releases(queue, Resolve(accessToken)));
      ReleasesPostNothing(queue, Resolve(accessToken));
    }

    /** The refresh call threw (network error, non-2xx status or a body without `data`). */
    method OnRefreshFailed(reason: string) returns (out: Outcome)
      requires Valid() && isRefreshing
      modifies this, window
      ensures Valid()
      ensures !isRefreshing && failedQueue == [] && pending == None
      ensures out == Rejected(RefreshFailed(reason))
      ensures effects == old(effects) + Releases(old(failedQueue), Reject(RefreshFailed(reason)))
                         + [CookieRemoved(AccessTokenKey), CookieRemoved(RefreshTokenKey), Navigated(LoginPath)]
      ensures window.cookies == old(window.cookies) - {AccessTokenKey, RefreshTokenKey}
      ensures window.href == LoginPath
    {
      ghost var queue := failedQueue;
      out := FailRefresh(RefreshFailed(reason));
      pending := None;
      settled := settled + 1;
      ghost var tail := [CookieRemoved(AccessTokenKey), CookieRemoved(RefreshTokenKey), Navigated(LoginPath)];
      RefreshPostsAppend(old(effects), Releases(queue, Reject(RefreshFailed(reason))));
      RefreshPostsAppend(old(effects) + Releases(queue, Reject(RefreshFailed(reason))), tail);
      ReleasesPostNothing(queue, Reject(RefreshFailed(reason)));
      NoRefreshPosts(tail);
    }
  }

  /**
   * N requests that all come back 401 in one expiry window, from an idle client
   * with a refresh token: exactly one refresh call is made, the first request is
   * the one retried, and the others wait in the queue in arrival order, unmarked.
   */
  method SingleFlight(client: SecureClient, reqs: seq<RequestConfig>) returns (outs: seq<Outcome>)
    requires client.Valid() && !client.isRefreshing
    requires |reqs| >= 1
    requires forall i, j :: 0 <= i < j < |reqs| ==> reqs[i] != reqs[j]
    requires forall i :: 0 <= i < |reqs| ==> !reqs[i].retry
    requires UsableRefreshToken(client.window.cookies).Some?
    modifies client, client.window, set r | r in reqs
    ensures client.Valid()
    ensures RefreshPosts(client.effects) == RefreshPosts(old(client.effects)) + 1
    ensures client.effects == old(client.effects) + [RefreshPosted(UsableRefreshToken(old(client.window.cookies)).value)]
    ensures client.isRefreshing && client.pending == Some(reqs[0])
    ensures client.failedQueue == reqs[1..]
    ensures reqs[0].retry && forall i :: 1 <= i < |reqs| ==> !reqs[i].retry
    ensures |outs| == |reqs| && forall i :: 0 <= i < |outs| ==> outs[i] == Pending
  {
    ghost var effects0 := client.effects;
    ghost var token := UsableRefreshToken(client.window.cookies).value;
    var out := client.OnResponseError(reqs[0], Some(401));
    RefreshPostsAppend(effects0, [RefreshPosted(token)]);
    outs := [out];
    var i := 1;
    while i < |reqs|
      invariant 1 <= i <= |reqs|
      invariant client.Valid()
      invariant client.effects == effects0 + [RefreshPosted(token)]
      invariant client.isRefreshing && client.pending == Some(reqs[0])
      invariant client.failedQueue == reqs[1..i]
      invariant reqs[0].retry
      invariant forall j :: 1 <= j < |reqs| ==> !reqs[j].retry
      invariant |outs| == i && forall j :: 0 <= j < i ==> outs[j] == Pending
    {
      out := client.OnResponseError(reqs[i], Some(401));
      assert reqs[1..i + 1] == reqs[1..i] + [reqs[i]];
      outs := outs + [out];
      i := i + 1;
    }
  }
}
