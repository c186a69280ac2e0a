/**
 * `spotify.api.SpotifyCall`: the "greedy" executor that retries a Web API
 * request up to ten times, and the two pagers that drive it until the last
 * page.
 *
 * The remote side is a script of replies, one per attempt. When the script
 * runs out the remote counts as unreachable and the attempt fails with an
 * `IOException`. The session manager's `refresh()` is a function of how many
 * refreshes came before. Sleeps are recorded, not taken.
 *
 * The pure functions `ExecuteFrom`, `PagedFrom` and `CursorPagedFrom` are the
 * semantics; the methods `Execute`, `ExecutePaging` and `ExecutePagingCursor`
 * run the source's loops over a request builder and a remote object and are
 * proved to agree with them.
 */
module SpotifyCall {
  import opened Lang
  import SpotifyUtils

  const RETRY_TIMEOUT_429: int := 1000
  const RETRY_TIMEOUT_GENERIC_ERROR: int := 10 * 1000
  const MAX_ATTEMPTS: nat := 10

  /** An attempt on a remote that has no reply left. */
  const UNREACHABLE: Exception := IOError("remote unreachable")

  /** What `Thread.sleep` throws for a negative duration. */
  const NEGATIVE_SLEEP: Exception := IllegalArgument("timeout value is negative")

  /** The outcome of one `builtRequest.execute()`. */
  datatype Reply<+T> = Returns(value: T) | Raises(error: Exception)

  /** The parts of a request builder the executor and the pagers set. */
  datatype Request = Request(authorization: Option<string>, offset: int, after: Option<string>)

  /**
   * All the executor reads and changes: the replies still to come, how many
   * refreshes were made, the builder, and the logs of requests sent and
   * sleeps taken.
   */
  datatype Trace<T> = Trace(
    replies: seq<Reply<T>>,
    refreshes: nat,
    request: Request,
    sent: seq<Request>,
    sleeps: seq<int>)

  /** `SpotifyApiManager.refresh()`, by the number of earlier calls. */
  type Refresher = nat -> Result<Option<string>, Exception>

  datatype CallEnd<T> = CallEnd(outcome: Result<T, Exception>, state: Trace<T>)

  datatype Attempted<T> = Attempted(reply: Reply<T>, state: Trace<T>)

  /** What the catch block decides: give up with a result, or try again. */
  datatype Step<T> = Stop(end: CallEnd<T>) | Retry(state: Trace<T>)

  /** The back-off after a 429 on the given attempt, in milliseconds. */
  function TooManyRequestsSleep(retryAfter: int, attempt: nat): int
  {
    retryAfter * RETRY_TIMEOUT_429 * attempt + RETRY_TIMEOUT_429
  }

  /** An exception the last catch-all clause handles by sleeping and retrying. */
  predicate IsGeneric(e: Exception)
  {
    !(e.ParseError? || e.IOError? || e.Unauthorized? || e.TooManyRequests?
      || e.NotFound? || e.BadRequest? || e.Forbidden?)
  }

  /** An exception after which no further attempt is made. */
  predicate EndsAtOnce(e: Exception)
  {
    e.ParseError? || e.IOError? || e.NotFound? || e.BadRequest? || e.Forbidden?
  }

  /** One attempt: the builder's request is sent and the next reply taken. */
  function SendOnce<T>(t: Trace<T>): (a: Attempted<T>)
    ensures a.state.sent == t.sent + [t.request]
    ensures a.state.(replies := t.replies, sent := t.sent) == t
    ensures |t.replies| == 0 ==> a == Attempted(Raises(UNREACHABLE), a.state) && a.state.replies == []
    ensures |t.replies| > 0 ==> a.reply == t.replies[0] && a.state.replies == t.replies[1..]
  {
    if |t.replies| == 0 then Attempted(Raises(UNREACHABLE), t.(sent := t.sent + [t.request]))
    else Attempted(t.replies[0], t.(replies := t.replies[1..], sent := t.sent + [t.request]))
  }

  /** The catch block of attempt `attempt` for exception `e`. */
  function Recover<T>(t: Trace<T>, refresh: Refresher, attempt: nat, e: Exception): (s: Step<T>)
    ensures s.Stop? ==> s.end.outcome.Failure? && s.end.state.replies == t.replies && s.end.state.sent == t.sent
    ensures s.Retry? ==> s.state.replies == t.replies && s.state.sent == t.sent
  {
    match e
    case ParseError => Stop(CallEnd(Failure(ApiException(e)), t))
    case IOError(_) => Stop(CallEnd(Failure(ApiException(e)), t))
    case Unauthorized =>
      var newAccessToken := refresh(t.refreshes);
      var refreshed := t.(refreshes := t.refreshes + 1);
      if newAccessToken.Failure? then Stop(CallEnd(Failure(newAccessToken.error), refreshed))
      else Retry(refreshed.(request := refreshed.request.(authorization := Some("Bearer " + StringOf(newAccessToken.value)))))
    case TooManyRequests(retryAfter) =>
      var sleepMs := TooManyRequestsSleep(retryAfter, attempt);
      if sleepMs < 0 then Stop(CallEnd(Failure(NEGATIVE_SLEEP), t))
      else Retry(t.(sleeps := t.sleeps + [sleepMs]))
    case NotFound => Stop(CallEnd(Failure(ApiException(e)), t))
    case BadRequest => Stop(CallEnd(Failure(ApiException(e)), t))
    case Forbidden => Stop(CallEnd(Failure(ApiException(e)), t))
    case _ => Retry(t.(sleeps := t.sleeps + [RETRY_TIMEOUT_GENERIC_ERROR]))
  }

  /**
   * `execute` from attempt `attempt` on. A success consumes at least one
   * reply, which is what makes the pagers terminate.
   */
  function ExecuteFrom<T>(t: Trace<T>, refresh: Refresher, attempt: nat): (r: CallEnd<T>)
    requires 1 <= attempt <= MAX_ATTEMPTS
    ensures r.outcome.Success? ==> |r.state.replies| < |t.replies|
    decreases MAX_ATTEMPTS - attempt
  {
    var a := SendOnce(t);
    match a.reply
    case Returns(v) => CallEnd(Success(v), a.state)
    case Raises(e) =>
      match Recover(a.state, refresh, attempt, e)
      case Stop(end) => end
      case Retry(next) =>
        if attempt == MAX_ATTEMPTS then CallEnd(Failure(ApiException(e)), next)
        else ExecuteFrom(next, refresh, attempt + 1)
  }

  /**
   * The work `execute` does from attempt `attempt` on: at least one and at
   * most `MAX_ATTEMPTS - attempt + 1` requests are sent, earlier requests stay
   * logged, and replies are consumed from the front.
   */
  lemma {:induction false} ExecuteFromBounds<T>(t: Trace<T>, refresh: Refresher, attempt: nat)
    requires 1 <= attempt <= MAX_ATTEMPTS
    ensures var r := ExecuteFrom(t, refresh, attempt);
      && |t.sent| < |r.state.sent| <= |t.sent| + MAX_ATTEMPTS + 1 - attempt
      && r.state.sent[..|t.sent|] == t.sent
      && |r.state.replies| <= |t.replies|
      && r.state.replies == t.replies[|t.replies| - |r.state.replies|..]
    decreases MAX_ATTEMPTS - attempt
  {
    var a := SendOnce(t);
    if a.reply.Raises? {
      var s := Recover(a.state, refresh, attempt, a.reply.error);
      if s.Retry? && attempt < MAX_ATTEMPTS {
        var next := s.state;
        ExecuteFromBounds(next, refresh, attempt + 1);
        var r := ExecuteFrom(next, refresh, attempt + 1);
        assert r.state.sent[..|t.sent|] == r.state.sent[..|next.sent|][..|t.sent|];
        assert next.replies == t.replies[|t.replies| - |next.replies|..];
      }
    }
  }

  /** `execute(requestBuilder)`. */
  function Executed<T>(t: Trace<T>, refresh: Refresher): CallEnd<T>
  {
    ExecuteFrom(t, refresh, 1)
  }

  // ---------------------------------------------------------------------------
  // Properties of the executor

  /** The replies `retryAfters` as 429 responses. */
  function Throttled<T>(retryAfters: seq<int>): (r: seq<Reply<T>>)
    ensures |r| == |retryAfters|
    ensures forall i :: 0 <= i < |r| ==> r[i] == Raises(TooManyRequests(retryAfters[i]))
  {
    if |retryAfters| == 0 then [] else [Raises(TooManyRequests(retryAfters[0]))] + Throttled(retryAfters[1..])
  }

  /** The back-offs the executor takes for those 429s, the first on attempt `attempt`. */
  function ThrottleSleeps(retryAfters: seq<int>, attempt: nat): (r: seq<int>)
    ensures |r| == |retryAfters|
  {
    if |retryAfters| == 0 then []
    else [TooManyRequestsSleep(retryAfters[0], attempt)] + ThrottleSleeps(retryAfters[1..], attempt + 1)
  }

  /** The i-th back-off is retryAfter_i * 1000 * (attempt + i) + 1000 milliseconds. */
  lemma {:induction false} ThrottleSleepsValues(retryAfters: seq<int>, attempt: nat)
    ensures forall i :: 0 <= i < |retryAfters| ==>
      ThrottleSleeps(retryAfters, attempt)[i] == retryAfters[i] * 1000 * (attempt + i) + 1000
    decreases |retryAfters|
  {
    if |retryAfters| > 0 {
      var ras := retryAfters[1..];
      ThrottleSleepsValues(ras, attempt + 1);
      forall i | 0 < i < |retryAfters|
        ensures ThrottleSleeps(retryAfters, attempt)[i] == retryAfters[i] * 1000 * (attempt + i) + 1000
      {
        assert ThrottleSleeps(retryAfters, attempt)[i] == ThrottleSleeps(ras, attempt + 1)[i - 1];
        assert ras[i - 1] == retryAfters[i];
        assert attempt + 1 + (i - 1) == attempt + i;
      }
    }
  }

  /** A reply on this attempt is the result: one request, no sleep, no refresh. */
  lemma ReturnsAtOnce<T>(t: Trace<T>, refresh: Refresher, attempt: nat, v: T)
    requires 1 <= attempt <= MAX_ATTEMPTS
    requires |t.replies| > 0 && t.replies[0] == Returns(v)
    ensures ExecuteFrom(t, refresh, attempt) ==
      CallEnd(Success(v), t.(replies := t.replies[1..], sent := t.sent + [t.request]))
  {
  }

  /** A 429 with a non-negative back-off sleeps and tries again. */
  lemma ThrottledStep<T>(t: Trace<T>, refresh: Refresher, attempt: nat, retryAfter: int)
    requires 1 <= attempt < MAX_ATTEMPTS
    requires |t.replies| > 0 && t.replies[0] == Raises(TooManyRequests(retryAfter))
    requires TooManyRequestsSleep(retryAfter, attempt) >= 0
    ensures ExecuteFrom(t, refresh, attempt) ==
      ExecuteFrom(t.(replies := t.replies[1..], sent := t.sent + [t.request],
                     sleeps := t.sleeps + [TooManyRequestsSleep(retryAfter, attempt)]),
                  refresh, attempt + 1)
  {
  }

  /** A 429 whose back-off is negative ends the call with the exception `Thread.sleep` throws, unwrapped. */
  lemma NegativeBackOffStops<T>(t: Trace<T>, refresh: Refresher, attempt: nat, retryAfter: int)
    requires 1 <= attempt <= MAX_ATTEMPTS
    requires |t.replies| > 0 && t.replies[0] == Raises(TooManyRequests(retryAfter))
    requires TooManyRequestsSleep(retryAfter, attempt) < 0
    ensures ExecuteFrom(t, refresh, attempt) ==
      CallEnd(Failure(NEGATIVE_SLEEP), t.(replies := t.replies[1..], sent := t.sent + [t.request]))
  {
  }

  lemma SnocAppend<T>(a: seq<T>, x: T, b: seq<T>)
    ensures a + [x] + b == a + ([x] + b)
  {
  }

  predicate NonNegative(xs: seq<int>)
  {
    forall i :: 0 <= i < |xs| ==> xs[i] >= 0
  }

  /**
   * After k 429 responses a success is returned on attempt k + 1: exactly
   * k + 1 requests are sent, the i-th back-off is retryAfter_i * 1000 * i + 1000
   * milliseconds, and nothing else changes.
   */
  lemma {:induction false} RateLimitedThenSuccess<T>(t: Trace<T>, refresh: Refresher, attempt: nat,
                                                      retryAfters: seq<int>, v: T, rest: seq<Reply<T>>)
    requires 1 <= attempt && attempt + |retryAfters| <= MAX_ATTEMPTS
    requires t.replies == Throttled(retryAfters) + [Returns(v)] + rest
    requires NonNegative(ThrottleSleeps(retryAfters, attempt))
    ensures ExecuteFrom(t, refresh, attempt) ==
      CallEnd(Success(v), t.(replies := rest,
                             sent := t.sent + Copies(t.request, |retryAfters| + 1),
                             sleeps := t.sleeps + ThrottleSleeps(retryAfters, attempt)))
    decreases |retryAfters|
  {
    if |retryAfters| == 0 {
      assert t.replies == [Returns(v)] + rest;
      assert t.replies[1..] == rest;
      ReturnsAtOnce(t, refresh, attempt, v);
      assert Copies(t.request, 1) == [t.request];
    } else {
      var sleepMs := TooManyRequestsSleep(retryAfters[0], attempt);
      var ras := retryAfters[1..];
      assert t.replies[0] == Raises(TooManyRequests(retryAfters[0]));
      assert t.replies[1..] == Throttled(ras) + [Returns(v)] + rest;
      var next := t.(replies := t.replies[1..], sent := t.sent + [t.request], sleeps := t.sleeps + [sleepMs]);
      assert ThrottleSleeps(retryAfters, attempt) == [sleepMs] + ThrottleSleeps(ras, attempt + 1);
      assert ThrottleSleeps(retryAfters, attempt)[0] == sleepMs;
      ThrottledStep(t, refresh, attempt, retryAfters[0]);
      var all := ThrottleSleeps(retryAfters, attempt);
      var later := ThrottleSleeps(ras, attempt + 1);
      forall i | 0 <= i < |later|
        ensures later[i] >= 0
      {
        assert later[i] == all[i + 1];
      }
      RateLimitedThenSuccess(next, refresh, attempt + 1, ras, v, rest);
      var sent := t.sent + Copies(t.request, |retryAfters| + 1);
      var sleeps := t.sleeps + ThrottleSleeps(retryAfters, attempt);
      assert Copies(t.request, |retryAfters| + 1) == [t.request] + Copies(t.request, |ras| + 1);
      SnocAppend(t.sent, t.request, Copies(t.request, |ras| + 1));
      SnocAppend(t.sleeps, sleepMs, ThrottleSleeps(ras, attempt + 1));
    }
  }

  /**
   * A parse or I/O failure, or a 404, 400 or 403, ends the call on the attempt
   * where it occurs: one request, no sleep, no refresh, and the exception is
   * thrown wrapped.
   */
  lemma StopsAtOnce<T>(t: Trace<T>, refresh: Refresher, attempt: nat, e: Exception)
    requires 1 <= attempt <= MAX_ATTEMPTS
    requires |t.replies| > 0 && t.replies[0] == Raises(e) && EndsAtOnce(e)
    ensures ExecuteFrom(t, refresh, attempt) ==
      CallEnd(Failure(ApiException(e)), t.(replies := t.replies[1..], sent := t.sent + [t.request]))
  {
  }

  /**
   * A 401 calls `refresh()` exactly once and sets the `Authorization` header
   * to `"Bearer " + token` before the next attempt, with no sleep.
   */
  lemma UnauthorizedRefreshes<T>(t: Trace<T>, refresh: Refresher, attempt: nat, token: Option<string>)
    requires 1 <= attempt < MAX_ATTEMPTS
    requires |t.replies| > 0 && t.replies[0] == Raises(Unauthorized)
    requires refresh(t.refreshes) == Success(token)
    ensures ExecuteFrom(t, refresh, attempt) ==
      ExecuteFrom(t.(replies := t.replies[1..],
                     refreshes := t.refreshes + 1,
                     request := t.request.(authorization := Some("Bearer " + StringOf(token))),
                     sent := t.sent + [t.request]),
                  refresh, attempt + 1)
  {
  }

  /** An exception thrown by `refresh()` itself leaves `execute` unwrapped. */
  lemma RefreshFailurePropagates<T>(t: Trace<T>, refresh: Refresher, attempt: nat, e: Exception)
    requires 1 <= attempt <= MAX_ATTEMPTS
    requires |t.replies| > 0 && t.replies[0] == Raises(Unauthorized)
    requires refresh(t.refreshes) == Failure(e)
    ensures ExecuteFrom(t, refresh, attempt) ==
      CallEnd(Failure(e), t.(replies := t.replies[1..], refreshes := t.refreshes + 1, sent := t.sent + [t.request]))
  {
  }

  /** Any other exception sleeps exactly 10 000 ms before the next attempt. */
  lemma GenericFailureSleeps<T>(t: Trace<T>, refresh: Refresher, attempt: nat, e: Exception)
    requires 1 <= attempt < MAX_ATTEMPTS
    requires |t.replies| > 0 && t.replies[0] == Raises(e) && IsGeneric(e)
    ensures ExecuteFrom(t, refresh, attempt) ==
      ExecuteFrom(t.(replies := t.replies[1..], sent := t.sent + [t.request], sleeps := t.sleeps + [10000]),
                  refresh, attempt + 1)
  {
  }

  /**
   * When every remaining attempt fails with such an exception, all of them
   * are made, each followed by a 10 000 ms sleep, and the last exception is
   * thrown wrapped.
   */
  lemma {:induction false} ExhaustsAttempts<T>(t: Trace<T>, refresh: Refresher, attempt: nat,
                                               failures: seq<Exception>, rest: seq<Reply<T>>)
    requires 1 <= attempt <= MAX_ATTEMPTS && |failures| == MAX_ATTEMPTS + 1 - attempt
    requires forall i :: 0 <= i < |failures| ==> IsGeneric(failures[i])
    requires |t.replies| == |failures| + |rest| && t.replies[|failures|..] == rest
    requires forall i :: 0 <= i < |failures| ==> t.replies[i] == Raises(failures[i])
    ensures ExecuteFrom(t, refresh, attempt) ==
      CallEnd(Failure(ApiException(failures[|failures| - 1])),
              t.(replies := rest, sent := t.sent + Copies(t.request, |failures|),
                 sleeps := t.sleeps + Copies(10000, |failures|)))
    decreases MAX_ATTEMPTS - attempt
  {
    var next := t.(replies := t.replies[1..], sent := t.sent + [t.request], sleeps := t.sleeps + [10000]);
    assert t.replies[0] == Raises(failures[0]);
    if attempt < MAX_ATTEMPTS {
      var fs := failures[1..];
      assert next.replies[|fs|..] == rest;
      assert forall i :: 0 <= i < |fs| ==> next.replies[i] == t.replies[i + 1];
      ExhaustsAttempts(next, refresh, attempt + 1, fs, rest);
      assert t.sent + [t.request] + Copies(t.request, |fs|) == t.sent + Copies(t.request, |failures|);
      assert t.sleeps + [10000] + Copies(10000, |fs|) == t.sleeps + Copies(10000, |failures|);
    } else {
      assert t.replies[1..] == rest;
      assert Copies(t.request, 1) == [t.request] && Copies(10000, 1) == [10000];
    }
  }

  // ---------------------------------------------------------------------------
  // Paging, offset-based

  /** `Paging<T>`: one page of items and where the next one starts. */
  datatype Paging<T> = Paging(items: Option<seq<T>>, next: Option<string>, offset: int, limit: int)

  /**
   * A pager's end: the result, the final state, and for the proofs the pages
   * received and the request state each `execute` started from.
   */
  datatype PagingEnd<P, T> = PagingEnd(outcome: Result<seq<T>, Exception>, state: Trace<P>, pages: seq<P>, requests: seq<Request>)

  /** The items of the pages so far in front of the items still to come. */
  function Prepend<T>(xs: seq<T>, r: Result<seq<T>, Exception>): Result<seq<T>, Exception>
  {
    if r.Success? then Success(xs + r.value) else r
  }

  /** Items already collected stay in front of those collected later. */
  lemma PrependPrepend<T>(xs: seq<T>, ys: seq<T>, r: Result<seq<T>, Exception>)
    ensures Prepend(xs, Prepend(ys, r)) == Prepend(xs + ys, r)
  {
    if r.Success? {
      assert xs + (ys + r.value) == (xs + ys) + r.value;
    }
  }

  /** The items of all pages, in page order. */
  function AllItems<T>(pages: seq<Paging<T>>): seq<T>
  {
    if |pages| == 0 then [] else SpotifyUtils.ItemsOf(pages[0].items) + AllItems(pages[1..])
  }

  /** The request for the page after `previous`: offset + limit, as an `int`. */
  function NextOffsetRequest<T>(t: Trace<Paging<T>>, previous: Option<Paging<T>>): Trace<Paging<T>>
  {
    if previous.Some? && previous.value.next.Some?
    then t.(request := t.request.(offset := WrapInt(previous.value.offset + previous.value.limit)))
    else t
  }

  /** The do-while loop of the offset-based `executePaging`, after page `previous`. */
  function PagedFrom<T>(t: Trace<Paging<T>>, refresh: Refresher, previous: Option<Paging<T>>): PagingEnd<Paging<T>, T>
    decreases |t.replies|
  {
    var t1 := NextOffsetRequest(t, previous);
    var end := Executed(t1, refresh);
    if end.outcome.Failure? then PagingEnd(Failure(end.outcome.error), end.state, [], [t1.request])
    else
      var paging := end.outcome.value;
      var items := SpotifyUtils.ItemsOf(paging.items);
      if paging.next.None? then PagingEnd(Success(items), end.state, [paging], [t1.request])
      else
        var rest := PagedFrom(end.state, refresh, Some(paging));
        PagingEnd(Prepend(items, rest.outcome), rest.state, [paging] + rest.pages, [t1.request] + rest.requests)
  }

  /** One step of the offset pager: a page with `next` is followed by the rest. */
  lemma PagedFromStep<T>(t: Trace<Paging<T>>, refresh: Refresher, previous: Option<Paging<T>>,
                         end: CallEnd<Paging<T>>, rest: PagingEnd<Paging<T>, T>)
    requires end == Executed(NextOffsetRequest(t, previous), refresh)
    requires end.outcome.Success? && end.outcome.value.next.Some?
    requires rest == PagedFrom(end.state, refresh, Some(end.outcome.value))
    ensures PagedFrom(t, refresh, previous) ==
      PagingEnd(Prepend(SpotifyUtils.ItemsOf(end.outcome.value.items), rest.outcome), rest.state,
                [end.outcome.value] + rest.pages, [NextOffsetRequest(t, previous).request] + rest.requests)
  {
  }

  /** Each request after the first asks for the page after the previous one: a page with `next`, at its offset + limit. */
  predicate OffsetsChained<T>(pages: seq<Paging<T>>, requests: seq<Request>)
    requires |requests| <= |pages| + 1
  {
    forall i {:trigger pages[i]} :: 0 <= i < |requests| - 1 ==>
      pages[i].next.Some? && requests[i + 1].offset == WrapInt(pages[i].offset + pages[i].limit)
  }

  /**
   * The requests of a pager run: one per page, one more after a failure,
   * the first being `first`, and each later one chained by offset.
   */
  predicate RequestsShaped<T>(e: PagingEnd<Paging<T>, T>, first: Request)
  {
    && |e.requests| == |e.pages| + (if e.outcome.Success? then 0 else 1) > 0
    && e.requests[0] == first
    && OffsetsChained(e.pages, e.requests)
  }

  /**
   * The offset pager's requests: one `execute` per page up to and including
   * the first page without `next`, plus the failed one if any; the first
   * request keeps the builder's offset (from the start, `previous` is null),
   * and each later one asks for the previous page's offset + limit.
   */
  lemma {:induction false} PagedRequests<T>(t: Trace<Paging<T>>, refresh: Refresher, previous: Option<Paging<T>>)
    ensures RequestsShaped(PagedFrom(t, refresh, previous), NextOffsetRequest(t, previous).request)
    ensures previous.None? ==> PagedFrom(t, refresh, previous).requests[0] == t.request
    decreases |t.replies|
  {
    var t1 := NextOffsetRequest(t, previous);
    var end := Executed(t1, refresh);
    if end.outcome.Success? && end.outcome.value.next.Some? {
      var paging := end.outcome.value;
      var rest := PagedFrom(end.state, refresh, Some(paging));
      PagedRequests(end.state, refresh, Some(paging));
      PagedFromStep(t, refresh, previous, end, rest);
      NextOffset(end.state, paging);
      RequestsShapedCons(paging, t1.request, rest, NextOffsetRequest(end.state, Some(paging)).request);
    } else {
      PagedFromLast(t, refresh, previous, end);
    }
  }

  /** After a page with `next`, the pager asks for its offset + limit, as an `int`. */
  lemma NextOffset<T>(t: Trace<Paging<T>>, paging: Paging<T>)
    requires paging.next.Some?
    ensures NextOffsetRequest(t, Some(paging)).request.offset == WrapInt(paging.offset + paging.limit)
  {
  }

  /** A page with `next` in front of a run whose first request asks for the page after it. */
  lemma RequestsShapedCons<T>(paging: Paging<T>, request: Request, rest: PagingEnd<Paging<T>, T>, next: Request)
    requires RequestsShaped(rest, next)
    requires paging.next.Some? && next.offset == WrapInt(paging.offset + paging.limit)
    ensures RequestsShaped(
      PagingEnd(Prepend(SpotifyUtils.ItemsOf(paging.items), rest.outcome), rest.state, [paging] + rest.pages, [request] + rest.requests),
      request)
  {
    OffsetsChainedCons(paging, request, rest.pages, rest.requests);
  }

  /** The last step of the offset pager: a failure, or a page without `next`. */
  lemma PagedFromLast<T>(t: Trace<Paging<T>>, refresh: Refresher, previous: Option<Paging<T>>, end: CallEnd<Paging<T>>)
    requires end == Executed(NextOffsetRequest(t, previous), refresh)
    requires end.outcome.Failure? || end.outcome.value.next.None?
    ensures var e := PagedFrom(t, refresh, previous);
      && e.requests == [NextOffsetRequest(t, previous).request]
      && e.pages == (if end.outcome.Success? then [end.outcome.value] else [])
      && e.outcome.Success? == end.outcome.Success?
  {
  }

  /** A page with `next`, followed by a chain whose first request asks for the page after it, is a chain. */
  lemma OffsetsChainedCons<T>(paging: Paging<T>, request: Request, pages: seq<Paging<T>>, requests: seq<Request>)
    requires 0 < |requests| <= |pages| + 1 && OffsetsChained(pages, requests)
    requires paging.next.Some? && requests[0].offset == WrapInt(paging.offset + paging.limit)
    ensures OffsetsChained([paging] + pages, [request] + requests)
  {
    var ps := [paging] + pages;
    var rs := [request] + requests;
    forall i | 0 <= i < |rs| - 1
      ensures ps[i].next.Some? && rs[i + 1].offset == WrapInt(ps[i].offset + ps[i].limit)
    {
      if i > 0 {
        assert ps[i] == pages[i - 1] && rs[i + 1] == requests[i];
      }
    }
  }

  /**
   * The offset pager's result: on success the last page is the first one
   * without `next`, and the items are those of all pages in page order.
   */
  lemma {:induction false} PagedItems<T>(t: Trace<Paging<T>>, refresh: Refresher, previous: Option<Paging<T>>)
    ensures var e := PagedFrom(t, refresh, previous);
      e.outcome.Success? ==>
        && |e.pages| > 0
        && e.pages[|e.pages| - 1].next.None?
        && (forall i :: 0 <= i < |e.pages| - 1 ==> e.pages[i].next.Some?)
        && e.outcome.value == AllItems(e.pages)
    decreases |t.replies|
  {
    var t1 := NextOffsetRequest(t, previous);
    var end := Executed(t1, refresh);
    if end.outcome.Success? && end.outcome.value.next.Some? {
      var paging := end.outcome.value;
      var rest := PagedFrom(end.state, refresh, Some(paging));
      PagedItems(end.state, refresh, Some(paging));
      PagedFromStep(t, refresh, previous, end, rest);
      var e := PagedFrom(t, refresh, previous);
      if e.outcome.Success? {
        assert e.pages == [paging] + rest.pages;
        assert e.pages[1..] == rest.pages;
        assert forall i :: 1 <= i < |e.pages| ==> e.pages[i] == rest.pages[i - 1];
      }
    }
  }

  // ---------------------------------------------------------------------------
  // Paging, cursor-based

  datatype Cursor = Cursor(after: Option<string>)

  /** `PagingCursorbased<T>`. */
  datatype CursorPaging<T> = CursorPaging(items: Option<seq<T>>, next: Option<string>, cursors: Option<seq<Cursor>>)

  function AllCursorItems<T>(pages: seq<CursorPaging<T>>): seq<T>
  {
    if |pages| == 0 then [] else SpotifyUtils.ItemsOf(pages[0].items) + AllCursorItems(pages[1..])
  }

  /**
   * The do-while loop of the cursor-based `executePaging`, after page
   * `previous`. Reading `cursors[0]` fails on a null or empty cursor array
   * before the next request. Cursors are strings here: the cast that fails
   * for builders with another cursor type is not part of this model.
   */
  function CursorPagedFrom<T>(t: Trace<CursorPaging<T>>, refresh: Refresher, previous: Option<CursorPaging<T>>): PagingEnd<CursorPaging<T>, T>
    decreases |t.replies|
  {
    if previous.Some? && previous.value.next.Some? && previous.value.cursors.None? then
      PagingEnd(Failure(NullPointer), t, [], [])
    else if previous.Some? && previous.value.next.Some? && |previous.value.cursors.value| == 0 then
      PagingEnd(Failure(IndexOutOfBounds), t, [], [])
    else
      var t1 := if previous.Some? && previous.value.next.Some?
                then t.(request := t.request.(after := previous.value.cursors.value[0].after))
                else t;
      var end := Executed(t1, refresh);
      if end.outcome.Failure? then PagingEnd(Failure(end.outcome.error), end.state, [], [t1.request])
      else
        var paging := end.outcome.value;
        var items := SpotifyUtils.ItemsOf(paging.items);
        if paging.next.None? then PagingEnd(Success(items), end.state, [paging], [t1.request])
        else
          var rest := CursorPagedFrom(end.state, refresh, Some(paging));
          PagingEnd(Prepend(items, rest.outcome), rest.state, [paging] + rest.pages, [t1.request] + rest.requests)
  }

  /**
   * The cursor pager: the first request is the builder's own; each later
   * request carries `after` from the previous page's first cursor; the
   * result is all items in page order, and any failure fails the whole call.
   * A page with `next` but no cursor fails before a further request is sent,
   * so a failed call has sent as many requests as it received pages, or one
   * more.
   */
  lemma {:induction false} CursorPagedFromShape<T>(t: Trace<CursorPaging<T>>, refresh: Refresher)
    ensures var e := CursorPagedFrom(t, refresh, None);
      && |e.pages| <= |e.requests| <= |e.pages| + 1
      && (e.outcome.Success? ==> |e.requests| == |e.pages|)
      && e.requests[0] == t.request
      && (forall i :: 0 <= i < |e.requests| - 1 ==>
            e.pages[i].next.Some? && e.pages[i].cursors.Some? && |e.pages[i].cursors.value| > 0
            && e.requests[i + 1].after == e.pages[i].cursors.value[0].after)
      && (e.outcome.Success? ==>
            |e.pages| > 0 && e.pages[|e.pages| - 1].next.None? && e.outcome.value == AllCursorItems(e.pages))
  {
    CursorAfterPage(t, refresh, None);
  }

  lemma {:induction false} CursorAfterPage<T>(t: Trace<CursorPaging<T>>, refresh: Refresher, previous: Option<CursorPaging<T>>)
    requires previous.Some? ==> previous.value.next.Some?
    ensures var e := CursorPagedFrom(t, refresh, previous);
      && |e.pages| <= |e.requests| <= |e.pages| + 1
      && (e.outcome.Success? ==> |e.requests| == |e.pages|)
      && (|e.requests| == |e.pages| + 1 ==> e.outcome.Failure?)
      && (|e.requests| > 0 ==> previous.None? ==> e.requests[0] == t.request)
      && (|e.requests| > 0 ==> previous.Some? ==>
            previous.value.cursors.Some? && |previous.value.cursors.value| > 0
            && e.requests[0].after == previous.value.cursors.value[0].after)
      && (|e.requests| == 0 ==> e.outcome.Failure? && previous.Some?)
      && (previous.None? ==> |e.requests| > 0)
      && (forall i :: 0 <= i < |e.requests| - 1 ==>
            e.pages[i].next.Some? && e.pages[i].cursors.Some? && |e.pages[i].cursors.value| > 0
            && e.requests[i + 1].after == e.pages[i].cursors.value[0].after)
      && (e.outcome.Success? ==>
            |e.pages| > 0 && e.pages[|e.pages| - 1].next.None? && e.outcome.value == AllCursorItems(e.pages))
    decreases |t.replies|
  {
    if previous.Some? && (previous.value.cursors.None? || |previous.value.cursors.value| == 0) {
    } else {
      var t1 := if previous.Some? then t.(request := t.request.(after := previous.value.cursors.value[0].after)) else t;
      var end := Executed(t1, refresh);
      if end.outcome.Success? && end.outcome.value.next.Some? {
        var paging := end.outcome.value;
        var rest := CursorPagedFrom(end.state, refresh, Some(paging));
        CursorAfterPage(end.state, refresh, Some(paging));
        var e := CursorPagedFrom(t, refresh, previous);
        assert e.pages == [paging] + rest.pages && e.requests == [t1.request] + rest.requests;
        assert e.pages[1..] == rest.pages;
        forall i | 0 <= i < |e.requests| - 1
          ensures e.pages[i].next.Some? && e.pages[i].cursors.Some? && |e.pages[i].cursors.value| > 0
            && e.requests[i + 1].after == e.pages[i].cursors.value[0].after
        {
          if i > 0 {
            assert e.pages[i] == rest.pages[i - 1] && e.requests[i + 1] == rest.requests[i];
          }
        }
      }
    }
  }

  // ---------------------------------------------------------------------------
  // The imperative executor

  /** An `IRequest.Builder`: the header and the paging parameters it carries. */
  class RequestBuilder {
    var authorization: Option<string>
    var offset: int
    var after: Option<string>

    constructor (authorization: Option<string>, offset: int, after: Option<string>)
      ensures Snapshot() == Request(authorization, offset, after)
    {
      this.authorization := authorization;
      this.offset := offset;
      this.after := after;
    }

    function Snapshot(): Request
      reads this
    {
      Request(authorization, offset, after)
    }

    /** `setHeader("Authorization", value)`. */
    method SetAuthorization(value: string)
      modifies this
      ensures Snapshot() == old(Snapshot()).(authorization := Some(value))
    {
      authorization := Some(value);
    }

    /** `offset(value)`. */
    method SetOffset(value: int)
      modifies this
      ensures Snapshot() == old(Snapshot()).(offset := value)
    {
      offset := value;
    }

    /** `after(value)`. */
    method SetAfter(value: Option<string>)
      modifies this
      ensures Snapshot() == old(Snapshot()).(after := value)
    {
      after := value;
    }
  }

  /**
   * The world the executor talks to: the Web API's scripted replies, the
   * session manager's `refresh()`, and the clock that `sneakySleep` waits on.
   */
  class Remote<T> {
    var replies: seq<Reply<T>>
    var refreshes: nat
    ghost var sent: seq<Request>
    ghost var sleeps: seq<int>
    const refresh: Refresher

    constructor (replies: seq<Reply<T>>, refresh: Refresher)
      ensures this.replies == replies && this.refresh == refresh
      ensures refreshes == 0 && sent == [] && sleeps == []
    {
      this.replies := replies;
      this.refresh := refresh;
      refreshes := 0;
      sent := [];
      sleeps := [];
    }

    ghost function Observed(request: Request): Trace<T>
      reads this
    {
      Trace(replies, refreshes, request, sent, sleeps)
    }

    /** `requestBuilder.build().execute()`. */
    method Transmit(builder: RequestBuilder) returns (reply: Reply<T>)
      modifies this
      ensures var a := SendOnce(old(Observed(builder.Snapshot())));
        reply == a.reply && Observed(builder.Snapshot()) == a.state
    {
      sent := sent + [builder.Snapshot()];
      if |replies| == 0 {
        reply := Raises(UNREACHABLE);
      } else {
        reply := replies[0];
        replies := replies[1..];
      }
    }

    /** `spotifyApiManager.refresh()`. */
    method Refresh() returns (token: Result<Option<string>, Exception>)
      modifies this
      ensures token == refresh(old(refreshes))
      ensures Observed(Request(None, 0, None)) == old(Observed(Request(None, 0, None))).(refreshes := old(refreshes) + 1)
    {
      token := refresh(refreshes);
      refreshes := refreshes + 1;
    }

    /** `SpotifyUtils.sneakySleep(ms)`: `Thread.sleep` refuses a negative duration. */
    method Sleep(ms: int) returns (thrown: Option<Exception>)
      modifies this
      ensures thrown == if ms < 0 then Some(NEGATIVE_SLEEP) else None
      ensures Observed(Request(None, 0, None)) ==
        if ms < 0 then old(Observed(Request(None, 0, None)))
        else old(Observed(Request(None, 0, None))).(sleeps := old(sleeps) + [ms])
    {
      if ms < 0 {
        thrown := Some(NEGATIVE_SLEEP);
      } else {
        thrown := None;
        sleeps := sleeps + [ms];
      }
    }
  }

  /**
   * The catch clauses of `execute` for exception `e` on attempt `attempt`:
   * `Some` with what `execute` then returns or throws, `None` to try again.
   * A 404, 400 or 403 breaks out of the loop, after which the exception is
   * thrown wrapped.
   */
  method Catch<T>(requestBuilder: RequestBuilder, remote: Remote<T>, attempt: nat, e: Exception) returns (stop: Option<Result<T, Exception>>)
    modifies requestBuilder, remote
    ensures var s := Recover(old(remote.Observed(requestBuilder.Snapshot())), remote.refresh, attempt, e);
      && (s.Stop? ==> stop == Some(s.end.outcome) && remote.Observed(requestBuilder.Snapshot()) == s.end.state)
      && (s.Retry? ==> stop.None? && remote.Observed(requestBuilder.Snapshot()) == s.state)
  {
    if e.ParseError? || e.IOError? {
      return Some(Failure(ApiException(e)));
    } else if e.Unauthorized? {
      var newAccessToken := remote.Refresh();
      if newAccessToken.Failure? {
        return Some(Failure(newAccessToken.error));
      }
      requestBuilder.SetAuthorization("Bearer " + StringOf(newAccessToken.value));
    } else if e.TooManyRequests? {
      var timeout := e.retryAfter;
      var sleepMs := timeout * RETRY_TIMEOUT_429 * attempt + RETRY_TIMEOUT_429;
      var thrown := remote.Sleep(sleepMs);
      if thrown.Some? {
        return Some(Failure(thrown.value));
      }
    } else if e.NotFound? || e.BadRequest? || e.Forbidden? {
      return Some(Failure(ApiException(e)));
    } else {
      var _ := remote.Sleep(RETRY_TIMEOUT_GENERIC_ERROR);
    }
    return None;
  }

  /**
   * One pass of the loop body of `execute`: the request is sent; a reply
   * ends the call, and an exception goes to the catch clauses. `thrown` is
   * the exception caught, if any.
   */
  method TryOnce<T>(requestBuilder: RequestBuilder, remote: Remote<T>, attempt: nat)
    returns (stop: Option<Result<T, Exception>>, thrown: Option<Exception>)
    modifies requestBuilder, remote
    ensures var a := SendOnce(old(remote.Observed(requestBuilder.Snapshot())));
      && (a.reply.Returns? ==> stop == Some(Success(a.reply.value)) && remote.Observed(requestBuilder.Snapshot()) == a.state)
      && (a.reply.Raises? ==>
            && thrown == Some(a.reply.error)
            && var s := Recover(a.state, remote.refresh, attempt, a.reply.error);
            && (s.Stop? ==> stop == Some(s.end.outcome) && remote.Observed(requestBuilder.Snapshot()) == s.end.state)
            && (s.Retry? ==> stop.None? && remote.Observed(requestBuilder.Snapshot()) == s.state))
  {
    var reply := remote.Transmit(requestBuilder);
    if reply.Returns? {
      return Some(Success(reply.value)), None;
    }
    thrown := Some(reply.error);
    stop := Catch(requestBuilder, remote, attempt, reply.error);
  }

  /** One attempt of `ExecuteFrom`, unfolded: the loop of `Execute` follows it step by step. */
  lemma ExecuteFromUnfold<T>(t: Trace<T>, refresh: Refresher, attempt: nat)
    requires 1 <= attempt <= MAX_ATTEMPTS
    ensures var a := SendOnce(t);
      && (a.reply.Returns? ==> ExecuteFrom(t, refresh, attempt) == CallEnd(Success(a.reply.value), a.state))
      && (a.reply.Raises? ==>
            var s := Recover(a.state, refresh, attempt, a.reply.error);
            && (s.Stop? ==> ExecuteFrom(t, refresh, attempt) == s.end)
            && (s.Retry? && attempt < MAX_ATTEMPTS ==> ExecuteFrom(t, refresh, attempt) == ExecuteFrom(s.state, refresh, attempt + 1))
            && (s.Retry? && attempt == MAX_ATTEMPTS ==> ExecuteFrom(t, refresh, attempt) == CallEnd(Failure(ApiException(a.reply.error)), s.state)))
  {
  }

  /** `execute(requestBuilder)`: the retry loop of at most ten attempts. */
  method Execute<T>(requestBuilder: RequestBuilder, remote: Remote<T>) returns (r: Result<T, Exception>)
    modifies requestBuilder, remote
    ensures var end := Executed(old(remote.Observed(requestBuilder.Snapshot())), remote.refresh);
      r == end.outcome && remote.Observed(requestBuilder.Snapshot()) == end.state
  {
    ghost var start := remote.Observed(requestBuilder.Snapshot());
    var finalException: Option<Exception> := None;
    var attempt := 1;
    while attempt <= MAX_ATTEMPTS
      invariant 1 <= attempt <= MAX_ATTEMPTS + 1
      invariant attempt <= MAX_ATTEMPTS ==>
        Executed(start, remote.refresh) == ExecuteFrom(remote.Observed(requestBuilder.Snapshot()), remote.refresh, attempt)
      invariant attempt > MAX_ATTEMPTS ==>
        finalException.Some? &&
        Executed(start, remote.refresh) == CallEnd(Failure(ApiException(finalException.value)), remote.Observed(requestBuilder.Snapshot()))
      decreases MAX_ATTEMPTS + 1 - attempt
    {
      ExecuteFromUnfold(remote.Observed(requestBuilder.Snapshot()), remote.refresh, attempt);
      var stop, thrown := TryOnce(requestBuilder, remote, attempt);
      if stop.Some? {
        return stop.value;
      }
      finalException := thrown;
      attempt := attempt + 1;
    }
    return Failure(ApiException(finalException.value));
  }

  /** The offset-based `executePaging`: a do-while loop over `execute`. */
  method ExecutePaging<T>(pagingRequestBuilder: RequestBuilder, remote: Remote<Paging<T>>) returns (r: Result<seq<T>, Exception>)
    modifies pagingRequestBuilder, remote
    ensures var end := PagedFrom(old(remote.Observed(pagingRequestBuilder.Snapshot())), remote.refresh, None);
      r == end.outcome && remote.Observed(pagingRequestBuilder.Snapshot()) == end.state
  {
    ghost var whole := PagedFrom(remote.Observed(pagingRequestBuilder.Snapshot()), remote.refresh, None);
    var resultList := new JavaList<T>();
    var paging: Option<Paging<T>> := None;
    assert whole.outcome.Success? ==> resultList.elements + whole.outcome.value == whole.outcome.value;
    while true
      invariant var rest := PagedFrom(remote.Observed(pagingRequestBuilder.Snapshot()), remote.refresh, paging);
        whole.outcome == Prepend(resultList.elements, rest.outcome) && whole.state == rest.state
      invariant paging.Some? ==> paging.value.next.Some?
      decreases |remote.replies|, if paging.None? then 1 else 0
    {
      ghost var before := remote.Observed(pagingRequestBuilder.Snapshot());
      ghost var rest := PagedFrom(before, remote.refresh, paging);
      if paging.Some? && paging.value.next.Some? {
        pagingRequestBuilder.SetOffset(WrapInt(paging.value.offset + paging.value.limit));
      }
      assert remote.Observed(pagingRequestBuilder.Snapshot()) == NextOffsetRequest(before, paging);
      var page := Execute(pagingRequestBuilder, remote);
      if page.Failure? {
        return Failure(page.error);
      }
      var items := SpotifyUtils.ItemsOf(page.value.items);
      ghost var listed := resultList.elements;
      SpotifyUtils.AddToListIfNotBlank(page.value.items, resultList);
      paging := Some(page.value);
      if page.value.next.None? {
        assert rest.outcome == Success(items);
        return Success(resultList.elements);
      }
      ghost var after := PagedFrom(remote.Observed(pagingRequestBuilder.Snapshot()), remote.refresh, paging);
      assert rest.outcome == Prepend(items, after.outcome) && rest.state == after.state;
      PrependPrepend(listed, items, after.outcome);
    }
  }

  /** The cursor-based `executePaging`. */
  method ExecutePagingCursor<T>(pagingRequestBuilder: RequestBuilder, remote: Remote<CursorPaging<T>>) returns (r: Result<seq<T>, Exception>)
    modifies pagingRequestBuilder, remote
    ensures var end := CursorPagedFrom(old(remote.Observed(pagingRequestBuilder.Snapshot())), remote.refresh, None);
      r == end.outcome && remote.Observed(pagingRequestBuilder.Snapshot()) == end.state
  {
    ghost var whole := CursorPagedFrom(remote.Observed(pagingRequestBuilder.Snapshot()), remote.refresh, None);
    var resultList := new JavaList<T>();
    var paging: Option<CursorPaging<T>> := None;
    assert whole.outcome.Success? ==> resultList.elements + whole.outcome.value == whole.outcome.value;
    while true
      invariant var rest := CursorPagedFrom(remote.Observed(pagingRequestBuilder.Snapshot()), remote.refresh, paging);
        whole.outcome == Prepend(resultList.elements, rest.outcome) && whole.state == rest.state
      invariant paging.Some? ==> paging.value.next.Some?
      decreases |remote.replies|, if paging.None? then 1 else 0
    {
      ghost var before := remote.Observed(pagingRequestBuilder.Snapshot());
      ghost var rest := CursorPagedFrom(before, remote.refresh, paging);
      if paging.Some? && paging.value.next.Some? {
        if paging.value.cursors.None? {
          return Failure(NullPointer);
        }
        if |paging.value.cursors.value| == 0 {
          return Failure(IndexOutOfBounds);
        }
        var after := paging.value.cursors.value[0].after;
        pagingRequestBuilder.SetAfter(after);
      }
      var page := Execute(pagingRequestBuilder, remote);
      if page.Failure? {
        return Failure(page.error);
      }
      var items := SpotifyUtils.ItemsOf(page.value.items);
      ghost var listed := resultList.elements;
      SpotifyUtils.AddToListIfNotBlank(page.value.items, resultList);
      paging := Some(page.value);
      if page.value.next.None? {
        assert rest.outcome == Success(items);
        return Success(resultList.elements);
      }
      ghost var later := CursorPagedFrom(remote.Observed(pagingRequestBuilder.Snapshot()), remote.refresh, paging);
      assert rest.outcome == Prepend(items, later.outcome) && rest.state == later.state;
      PrependPrepend(listed, items, later.outcome);
    }
  }
}
