/** The rate-limit-aware endpoint rotation of `SuiClientRateLimitSwitch`:
    one pass over the endpoints, rotating on rate-limit errors, then up to
    five retries against the starting endpoint with doubling waits. */
module RpcSwitch {
  import opened Wrappers
  import opened Strings
  import opened Seqs

  /** What the retry logic can see of a thrown error: `response.status`,
      `status`, `statusCode`, `message` and `JSON.stringify(error)`. */
  datatype ErrorInfo = ErrorInfo(
    responseStatus: Option<int>,
    status: Option<int>,
    statusCode: Option<int>,
    message: Option<string>,
    serialized: string)

  /** The result of one remote call: a value, or a thrown error. */
  datatype Outcome = Ok(value: string) | Fail(error: ErrorInfo)

  /** A client bound to one endpoint URL. */
  datatype Client = Client(url: string)

  /** The remote operation: the outcome of the attempt with the given number
      (0, 1, ... within one call) against the endpoint with the given index. */
  type Operation = (nat, nat) -> Outcome

  const InitialBackoff: nat := 2000
  const MaxBackoff: nat := 32000
  const MaxRetries: nat := 5

  /** The error thrown when there is no first-pass error to rethrow. */
  const Exhausted := ErrorInfo(None, None, None, Some("All rate limit retries exhausted"), "{}")

  predicate IsFetchFailure(e: ErrorInfo) {
    e.message == Some("Failed to fetch") || e.message == Some("Load failed")
  }

  /** `error?.message && error.message.includes(p)`. */
  predicate MessageHas(e: ErrorInfo, p: string) {
    Truthy(e.message) && Contains(e.message.value, p)
  }

  /** The classifier of the first pass. */
  predicate IsRateLimited(e: ErrorInfo) {
    || e.responseStatus == Some(429)
    || e.status == Some(429)
    || e.statusCode == Some(429)
    || MessageHas(e, "429") || MessageHas(e, "Too Many Requests") || MessageHas(e, "rate limit")
    || Contains(e.serialized, "429")
    || Contains(e.serialized, "Too Many Requests")
    || IsFetchFailure(e)
  }

  /** The narrower classifier of the backoff loop: no `statusCode`, no
      "Too Many Requests", no look at the serialized error. */
  predicate IsRateLimitedRetry(e: ErrorInfo) {
    || e.responseStatus == Some(429)
    || e.status == Some(429)
    || MessageHas(e, "429") || MessageHas(e, "rate limit")
    || IsFetchFailure(e)
  }

  /** Every error the backoff loop treats as a rate limit, the first pass
      does too. */
  lemma RetryClassifierNarrower(e: ErrorInfo)
    ensures IsRateLimitedRetry(e) ==> IsRateLimited(e)
  {
  }

  lemma NotContainsChar(s: string, p: string)
    requires p != [] && p[0] !in s
    ensures !Contains(s, p)
    decreases |s|
  {
    if |s| > 0 {
      assert forall c :: c in s[1..] ==> c in s;
      NotContainsChar(s[1..], p);
    }
  }

  lemma TooManyRequestsText()
    ensures Contains("Too Many Requests", "Too Many Requests")
    ensures !Contains("Too Many Requests", "429") && !Contains("Too Many Requests", "rate limit")
  {
    var m, p, q := "Too Many Requests", "429", "rate limit";
    assert StartsWith(m, m);
    assert p[0] == '4' && q[0] == 'r';
    assert '4' !in m && 'r' !in m;
    NotContainsChar(m, p);
    NotContainsChar(m, q);
  }

  /** An error whose message mentions "Too Many Requests" but neither "429"
      nor "rate limit", with no status fields, rotates the endpoint in the
      first pass but is rethrown at once in backoff. */
  lemma MessageOnlyRateLimit(m: string, serialized: string)
    requires Contains(m, "Too Many Requests") && !Contains(m, "429") && !Contains(m, "rate limit")
    requires m != "Failed to fetch" && m != "Load failed"
    ensures var e := ErrorInfo(None, None, None, Some(m), serialized);
            IsRateLimited(e) && !IsRateLimitedRetry(e)
  {
  }

  /** For example a plain `Error("Too Many Requests")`, which serializes to
      "{}". */
  lemma ClassifiersDisagree()
    ensures var e := ErrorInfo(None, None, None, Some("Too Many Requests"), "{}");
            IsRateLimited(e) && !IsRateLimitedRetry(e)
  {
    TooManyRequestsText();
    var m := "Too Many Requests";
    assert m != "Failed to fetch" && m != "Load failed" by {
      assert |m| == 17;
    }
    MessageOnlyRateLimit(m, "{}");
  }

  /** So does an error whose only sign is `statusCode: 429`. */
  lemma StatusCodeOnlyInFirstPass()
    ensures var e := ErrorInfo(None, None, Some(429), None, "{}");
            IsRateLimited(e) && !IsRateLimitedRetry(e)
  {
  }

  // ------------------------------------------------------------ the schedule

  /** The wait before backoff retry `k`: 2000 ms, doubled each time, at most
      32000 ms. */
  function Wait(k: nat): (w: nat)
    ensures InitialBackoff <= w <= MaxBackoff
  {
    if k == 0 then InitialBackoff else Min(2 * Wait(k - 1), MaxBackoff)
  }

  /** The five waits are 2, 4, 8, 16 and 32 seconds. */
  lemma WaitSchedule()
    ensures [Wait(0), Wait(1), Wait(2), Wait(3), Wait(4)] == [2000, 4000, 8000, 16000, 32000]
  {
  }

  // --------------------------------------------------- one call, as a value

  /** What one `executeWithRetry` call does: its outcome, the endpoint of
      each attempt, the waits, the final `currentIndex` and the number of
      rotations. */
  datatype Run = Run(outcome: Outcome, tried: seq<nat>, waits: seq<nat>, endIndex: nat, rotations: nat)

  /** The first pass from attempt `i`: the endpoint is `start + i` modulo
      `n`, since each rate-limited attempt rotated once. */
  function FirstPass(op: Operation, n: nat, start: nat, i: nat, tried: seq<nat>, lastError: Option<ErrorInfo>): Run
    requires 0 < n && start < n && i <= n
    decreases n - i
  {
    if i == n then Backoff(op, n, start, 0, InitialBackoff, tried, [], lastError)
    else
      var idx := (start + i) % n;
      match op(|tried|, idx)
      case Ok(v) => Run(Ok(v), tried + [idx], [], idx, i)
      case Fail(e) =>
        if IsRateLimited(e) then FirstPass(op, n, start, i + 1, tried + [idx], Some(e))
        else Run(Fail(e), tried + [idx], [], idx, i)
  }

  /** Backoff retry `r`, all against the start endpoint; at the end the last
      first-pass error is rethrown. */
  function Backoff(op: Operation, n: nat, start: nat, r: nat, wait: nat,
                   tried: seq<nat>, waits: seq<nat>, lastError: Option<ErrorInfo>): Run
    decreases MaxRetries - r
  {
    if r >= MaxRetries then Run(Fail(lastError.GetOr(Exhausted)), tried, waits, start, n)
    else
      var w := waits + [wait];
      match op(|tried|, start)
      case Ok(v) => Run(Ok(v), tried + [start], w, start, n)
      case Fail(e) =>
        if !IsRateLimitedRetry(e) then Run(Fail(e), tried + [start], w, start, n)
        else Backoff(op, n, start, r + 1, Min(2 * wait, MaxBackoff), tried + [start], w, lastError)
  }

  // One step of each phase, case by case.

  lemma FirstPassStops(op: Operation, n: nat, start: nat, i: nat, tried: seq<nat>, lastError: Option<ErrorInfo>)
    requires 0 < n && start < n && i < n
    requires var o := op(|tried|, (start + i) % n); o.Ok? || !IsRateLimited(o.error)
    ensures var idx := (start + i) % n;
      FirstPass(op, n, start, i, tried, lastError) == Run(op(|tried|, idx), tried + [idx], [], idx, i)
  {
  }

  lemma FirstPassRotates(op: Operation, n: nat, start: nat, i: nat, tried: seq<nat>, lastError: Option<ErrorInfo>)
    requires 0 < n && start < n && i < n
    requires var o := op(|tried|, (start + i) % n); o.Fail? && IsRateLimited(o.error)
    ensures var idx := (start + i) % n;
      FirstPass(op, n, start, i, tried, lastError)
        == FirstPass(op, n, start, i + 1, tried + [idx], Some(op(|tried|, idx).error))
  {
  }

  lemma BackoffStops(op: Operation, n: nat, start: nat, r: nat, wait: nat,
                     tried: seq<nat>, waits: seq<nat>, lastError: Option<ErrorInfo>)
    requires r < MaxRetries
    requires var o := op(|tried|, start); o.Ok? || !IsRateLimitedRetry(o.error)
    ensures Backoff(op, n, start, r, wait, tried, waits, lastError)
         == Run(op(|tried|, start), tried + [start], waits + [wait], start, n)
  {
  }

  lemma BackoffRetries(op: Operation, n: nat, start: nat, r: nat, wait: nat,
                       tried: seq<nat>, waits: seq<nat>, lastError: Option<ErrorInfo>)
    requires r < MaxRetries
    requires var o := op(|tried|, start); o.Fail? && IsRateLimitedRetry(o.error)
    ensures Backoff(op, n, start, r, wait, tried, waits, lastError)
         == Backoff(op, n, start, r + 1, Min(2 * wait, MaxBackoff), tried + [start], waits + [wait], lastError)
  {
  }

  function Call(op: Operation, n: nat, start: nat): Run
    requires 0 < n && start < n
  {
    FirstPass(op, n, start, 0, [], None)
  }

  // ------------------------------------- an independent description of a run

  /** The endpoint of attempt `k`: consecutive endpoints in the first pass,
      the start endpoint in backoff. */
  function EndpointOf(n: nat, start: nat, k: nat): nat
    requires 0 < n
  {
    if k < n then (start + k) % n else start
  }

  /** Attempt `k` failed with an error its phase counts as a rate limit. */
  predicate RateLimitedAt(op: Operation, n: nat, k: nat, idx: nat) {
    op(k, idx).Fail? &&
    if k < n then IsRateLimited(op(k, idx).error) else IsRateLimitedRetry(op(k, idx).error)
  }

  /** A run, described without recursion: at most `n + 5` attempts on the
      endpoints `EndpointOf`; every attempt but the last was rate limited;
      one rotation per rate-limited first-pass attempt; one wait per backoff
      attempt, following `Wait`; `currentIndex` ends at the last endpoint
      tried; and the outcome is the last attempt's (a success or an error
      that is not a rate limit) unless all five retries were rate limited,
      in which case it is the last first-pass error. */
  ghost predicate Faithful(op: Operation, n: nat, start: nat, run: Run)
    requires 0 < n
  {
    var t := run.tried;
    && 1 <= |t| <= n + MaxRetries
    && (forall k :: 0 <= k < |t| ==> t[k] == EndpointOf(n, start, k))
    && (forall k :: 0 <= k < |t| - 1 ==> RateLimitedAt(op, n, k, t[k]))
    && run.endIndex == t[|t| - 1]
    && run.rotations == Min(|t| - 1, n)
    && |run.waits| == (if |t| > n then |t| - n else 0)
    && (forall k :: 0 <= k < |run.waits| ==> run.waits[k] == Wait(k))
    && (|| (run.outcome == op(|t| - 1, t[|t| - 1]) && !RateLimitedAt(op, n, |t| - 1, t[|t| - 1]))
        || (|t| == n + MaxRetries && RateLimitedAt(op, n, |t| - 1, t[|t| - 1])
            && run.outcome == op(n - 1, t[n - 1])))
  }

  // Building blocks of the proof that every run is `Faithful`.

  /** One more attempt on the endpoint the schedule prescribes. */
  lemma TriedExtends(n: nat, start: nat, tried: seq<nat>, idx: nat)
    requires 0 < n
    requires forall k :: 0 <= k < |tried| ==> tried[k] == EndpointOf(n, start, k)
    requires idx == EndpointOf(n, start, |tried|)
    ensures forall k :: 0 <= k < |tried| + 1 ==> (tried + [idx])[k] == EndpointOf(n, start, k)
  {
  }

  /** One more rate-limited attempt. */
  lemma RateLimitedExtends(op: Operation, n: nat, tried: seq<nat>, idx: nat)
    requires forall k :: 0 <= k < |tried| ==> RateLimitedAt(op, n, k, tried[k])
    requires RateLimitedAt(op, n, |tried|, idx)
    ensures forall k :: 0 <= k < |tried| + 1 ==> RateLimitedAt(op, n, k, (tried + [idx])[k])
  {
    forall k | 0 <= k < |tried| + 1 ensures RateLimitedAt(op, n, k, (tried + [idx])[k]) {
      if k < |tried| {
        assert (tried + [idx])[k] == tried[k];
      }
    }
  }

  /** One more wait, following the schedule. */
  lemma WaitsExtend(waits: seq<nat>, r: nat, wait: nat)
    requires |waits| == r && wait == Wait(r)
    requires forall k :: 0 <= k < r ==> waits[k] == Wait(k)
    ensures forall k :: 0 <= k < r + 1 ==> (waits + [wait])[k] == Wait(k)
    ensures Min(2 * wait, MaxBackoff) == Wait(r + 1)
  {
  }

  /** A run that ends on attempt `|tried|`, whose error (if any) is not a
      rate limit for its phase. */
  lemma StoppedFaithful(op: Operation, n: nat, start: nat, tried: seq<nat>, idx: nat,
                        waits: seq<nat>, rotations: nat)
    requires 0 < n && |tried| < n + MaxRetries
    requires forall k :: 0 <= k < |tried| ==> tried[k] == EndpointOf(n, start, k)
    requires forall k :: 0 <= k < |tried| ==> RateLimitedAt(op, n, k, tried[k])
    requires idx == EndpointOf(n, start, |tried|) && !RateLimitedAt(op, n, |tried|, idx)
    requires rotations == Min(|tried|, n)
    requires |waits| == (if |tried| + 1 > n then |tried| + 1 - n else 0)
    requires forall k :: 0 <= k < |waits| ==> waits[k] == Wait(k)
    ensures Faithful(op, n, start, Run(op(|tried|, idx), tried + [idx], waits, idx, rotations))
  {
    var t := tried + [idx];
    TriedExtends(n, start, tried, idx);
    assert forall k :: 0 <= k < |t| - 1 ==> t[k] == tried[k];
  }

  /** A run whose five backoff retries were all rate limited. */
  lemma ExhaustedFaithful(op: Operation, n: nat, start: nat, tried: seq<nat>, waits: seq<nat>,
                          lastError: Option<ErrorInfo>)
    requires 0 < n && start < n && |tried| == n + MaxRetries && |waits| == MaxRetries
    requires forall k :: 0 <= k < |tried| ==> tried[k] == EndpointOf(n, start, k)
    requires forall k :: 0 <= k < |tried| ==> RateLimitedAt(op, n, k, tried[k])
    requires forall k :: 0 <= k < MaxRetries ==> waits[k] == Wait(k)
    requires lastError.Some? && op(n - 1, tried[n - 1]) == Fail(lastError.value)
    ensures Faithful(op, n, start, Run(Fail(lastError.GetOr(Exhausted)), tried, waits, start, n))
  {
    assert tried[|tried| - 1] == EndpointOf(n, start, |tried| - 1);
  }

  lemma {:induction false} BackoffFaithful(op: Operation, n: nat, start: nat, r: nat, wait: nat,
                                           tried: seq<nat>, waits: seq<nat>, lastError: Option<ErrorInfo>)
    requires 0 < n && start < n && r <= MaxRetries
    requires |tried| == n + r && |waits| == r && wait == Wait(r)
    requires forall k :: 0 <= k < |tried| ==> tried[k] == EndpointOf(n, start, k)
    requires forall k :: 0 <= k < |tried| ==> RateLimitedAt(op, n, k, tried[k])
    requires forall k :: 0 <= k < r ==> waits[k] == Wait(k)
    requires lastError.Some? && op(n - 1, tried[n - 1]) == Fail(lastError.value)
    ensures Faithful(op, n, start, Backoff(op, n, start, r, wait, tried, waits, lastError))
    decreases MaxRetries - r
  {
    if r >= MaxRetries {
      ExhaustedFaithful(op, n, start, tried, waits, lastError);
    } else {
      var o := op(|tried|, start);
      WaitsExtend(waits, r, wait);
      if o.Ok? || !IsRateLimitedRetry(o.error) {
        BackoffStops(op, n, start, r, wait, tried, waits, lastError);
        StoppedFaithful(op, n, start, tried, start, waits + [wait], n);
      } else {
        BackoffRetries(op, n, start, r, wait, tried, waits, lastError);
        TriedExtends(n, start, tried, start);
        RateLimitedExtends(op, n, tried, start);
        assert (tried + [start])[n - 1] == tried[n - 1];
        BackoffFaithful(op, n, start, r + 1, Min(2 * wait, MaxBackoff), tried + [start], waits + [wait], lastError);
      }
    }
  }

  lemma {:induction false} FirstPassFaithful(op: Operation, n: nat, start: nat, i: nat,
                                             tried: seq<nat>, lastError: Option<ErrorInfo>)
    requires 0 < n && start < n && i <= n && |tried| == i
    requires forall k :: 0 <= k < i ==> tried[k] == EndpointOf(n, start, k)
    requires forall k :: 0 <= k < i ==> RateLimitedAt(op, n, k, tried[k])
    requires i > 0 ==> lastError.Some? && op(i - 1, tried[i - 1]) == Fail(lastError.value)
    ensures Faithful(op, n, start, FirstPass(op, n, start, i, tried, lastError))
    decreases n - i
  {
    if i == n {
      BackoffFaithful(op, n, start, 0, InitialBackoff, tried, [], lastError);
    } else {
      var idx := (start + i) % n;
      var o := op(i, idx);
      if o.Ok? || !IsRateLimited(o.error) {
        FirstPassStops(op, n, start, i, tried, lastError);
        StoppedFaithful(op, n, start, tried, idx, [], i);
      } else {
        FirstPassRotates(op, n, start, i, tried, lastError);
        TriedExtends(n, start, tried, idx);
        RateLimitedExtends(op, n, tried, idx);
        FirstPassFaithful(op, n, start, i + 1, tried + [idx], Some(o.error));
      }
    }
  }

  /** Every call is described by `Faithful`. */
  lemma CallFaithful(op: Operation, n: nat, start: nat)
    requires 0 < n && start < n
    ensures Faithful(op, n, start, Call(op, n, start))
  {
    FirstPassFaithful(op, n, start, 0, [], None);
  }

  /** `currentIndex` stays in range, at most `n` rotations and at most five
      waits happen per call. */
  lemma CallBounds(op: Operation, n: nat, start: nat)
    requires 0 < n && start < n
    ensures var run := Call(op, n, start);
      run.endIndex < n && run.rotations <= n && |run.waits| <= MaxRetries && 1 <= |run.tried| <= n + MaxRetries
  {
    CallFaithful(op, n, start);
    var t := Call(op, n, start).tried;
    assert t[|t| - 1] == EndpointOf(n, start, |t| - 1);
  }

  /** A first attempt that succeeds, or fails with an error that is not a
      rate limit, ends the call at once: no rotation, no wait. */
  lemma CallEarlyExit(op: Operation, n: nat, start: nat)
    requires 0 < n && start < n
    requires op(0, start).Ok? || !IsRateLimited(op(0, start).error)
    ensures var run := Call(op, n, start);
      run.outcome == op(0, start) && run.tried == [start] && run.rotations == 0 && run.waits == []
  {
    assert (start + 0) % n == start;
    assert Call(op, n, start) == FirstPass(op, n, start, 0, [], None);
  }

  /** The backoff loop runs only after all `n` endpoints were rate limited,
      one after the other, and it leaves `currentIndex` at the start. */
  lemma BackoffOnlyAfterFullPass(op: Operation, n: nat, start: nat)
    requires 0 < n && start < n
    requires |Call(op, n, start).waits| > 0
    ensures var run := Call(op, n, start);
      && run.rotations == n && run.endIndex == start
      && forall k :: 0 <= k < n ==> RateLimitedAt(op, n, k, EndpointOf(n, start, k))
  {
    CallFaithful(op, n, start);
    var run := Call(op, n, start);
    assert forall k :: 0 <= k < n ==> run.tried[k] == EndpointOf(n, start, k);
    assert run.tried[|run.tried| - 1] == EndpointOf(n, start, |run.tried| - 1);
  }

  /** When every attempt is rate limited, the call waits five times, rotates
      `n` times, ends at the start endpoint and throws the error of the last
      first-pass attempt. */
  lemma AllRateLimited(op: Operation, n: nat, start: nat)
    requires 0 < n && start < n
    requires forall k :: 0 <= k < n + MaxRetries ==> RateLimitedAt(op, n, k, EndpointOf(n, start, k))
    ensures var run := Call(op, n, start);
      && |run.tried| == n + MaxRetries
      && run.waits == [2000, 4000, 8000, 16000, 32000]
      && run.rotations == n
      && run.endIndex == start
      && run.outcome == op(n - 1, (start + n - 1) % n)
  {
    CallFaithful(op, n, start);
    var run := Call(op, n, start);
    WaitSchedule();
    assert |run.tried| == n + MaxRetries;
  }

  // ---------------------------------------------------------------- the class

  /** `urls.filter(url => url && url.length > 0)`. */
  function NonEmpty(urls: seq<string>): (r: seq<string>)
    ensures forall u :: u in r <==> u in urls && u != ""
    ensures |r| <= |urls|
  {
    if urls == [] then []
    else NonEmpty(urls[..|urls| - 1]) + (if urls[|urls| - 1] != "" then [urls[|urls| - 1]] else [])
  }

  /** The filter keeps the order of the URLs: it distributes over
      concatenation. */
  lemma {:induction false} NonEmptyAppend(a: seq<string>, b: seq<string>)
    ensures NonEmpty(a + b) == NonEmpty(a) + NonEmpty(b)
    decreases |b|
  {
    if b == [] {
      assert a + b == a;
    } else {
      NonEmptyAppend(a, b[..|b| - 1]);
      assert (a + b)[..|a + b| - 1] == a + b[..|b| - 1];
    }
  }

  /** A list without empty URLs passes the filter unchanged. */
  lemma {:induction false} NonEmptyKeepsAll(a: seq<string>)
    requires forall i :: 0 <= i < |a| ==> a[i] != ""
    ensures NonEmpty(a) == a
  {
    if a != [] {
      NonEmptyKeepsAll(a[..|a| - 1]);
    }
  }

  class RateLimitSwitch {
    const urls: seq<string>
    const clients: seq<Client>
    var currentIndex: nat
    var requestCount: nat
    var rotationCount: nat

    /** One client per URL at the same index, and `currentIndex` in range. */
    ghost predicate Valid()
      reads this
    {
      && |urls| > 0
      && |clients| == |urls|
      && (forall i :: 0 <= i < |urls| ==> urls[i] != "" && clients[i] == Client(urls[i]))
      && currentIndex < |urls|
    }

    constructor(validUrls: seq<string>)
      requires validUrls != [] && forall i :: 0 <= i < |validUrls| ==> validUrls[i] != ""
      ensures Valid()
      ensures urls == validUrls && currentIndex == 0 && requestCount == 0 && rotationCount == 0
    {
      urls := validUrls;
      clients := seq(|validUrls|, i requires 0 <= i < |validUrls| => Client(validUrls[i]));
      currentIndex := 0;
      requestCount := 0;
      rotationCount := 0;
    }

    /** `new SuiClientRateLimitSwitch(urls)`: throws when no URL is
        non-empty, otherwise keeps the non-empty ones in order. */
    static method Create(urls: seq<string>) returns (r: Result<RateLimitSwitch, string>)
      ensures r.Failure? <==> forall i :: 0 <= i < |urls| ==> urls[i] == ""
      ensures r.Success? ==>
        && fresh(r.value) && r.value.Valid() && r.value.urls == NonEmpty(urls)
        && r.value.currentIndex == 0 && r.value.requestCount == 0 && r.value.rotationCount == 0
    {
      var validUrls := NonEmpty(urls);
      if validUrls == [] {
        forall i | 0 <= i < |urls| ensures urls[i] == "" {
          assert urls[i] in urls;
        }
        return Failure("At least one valid RPC URL is required");
      }
      assert validUrls[0] in validUrls;
      assert forall i :: 0 <= i < |validUrls| ==> validUrls[i] in validUrls;
      var s := new RateLimitSwitch(validUrls);
      r := Success(s);
    }

    /** `getCurrentClient()`: the client of the current endpoint. */
    function CurrentClient(): (c: Client)
      reads this
      requires Valid()
      ensures c.url == urls[currentIndex] && c.url != ""
    {
      clients[currentIndex]
    }

    /** `executeWithRetry(operation)`: counts the request, then behaves as
        `Call` from the current endpoint (so `Faithful` describes it). */
    method ExecuteWithRetry(op: Operation) returns (outcome: Outcome, tried: seq<nat>, waits: seq<nat>)
      requires Valid()
      modifies this
      ensures Valid()
      ensures var run := Call(op, |urls|, old(currentIndex));
        && outcome == run.outcome && tried == run.tried && waits == run.waits
        && currentIndex == run.endIndex
        && rotationCount == old(rotationCount) + run.rotations
        && requestCount == old(requestCount) + 1
    {
      var startIndex := currentIndex;
      requestCount := requestCount + 1;
      var done, lastError;
      done, outcome, tried, lastError := RotatePass(op);
      if done {
        waits := [];
        return;
      }
      outcome, tried, waits := RetryBackoff(op, startIndex, tried, lastError);
    }

    /** The first `for` loop of `executeWithRetry`: one attempt per endpoint,
        rotating after each rate-limited one. `done` says the call ended in
        it; otherwise every endpoint was rate limited, the index is back at
        the start, and the backoff phase decides the call. */
    method RotatePass(op: Operation) returns (done: bool, outcome: Outcome, tried: seq<nat>, lastError: Option<ErrorInfo>)
      requires Valid()
      modifies this
      ensures Valid() && requestCount == old(requestCount)
      ensures var call := Call(op, |urls|, old(currentIndex));
        done ==> && rotationCount >= old(rotationCount)
                 && call == Run(outcome, tried, [], currentIndex, rotationCount - old(rotationCount))
      ensures !done ==>
        && currentIndex == old(currentIndex) && rotationCount == old(rotationCount) + |urls|
        && Backoff(op, |urls|, currentIndex, 0, InitialBackoff, tried, [], lastError)
             == Call(op, |urls|, old(currentIndex))
    {
      var n := |urls|;
      var startIndex := currentIndex;
      lastError := None;
      tried := [];
      ModUnique(startIndex, n, 0, startIndex);

      var i := 0;
      while i < n
        invariant i <= n && |tried| == i
        invariant currentIndex == (startIndex + i) % n
        invariant rotationCount == old(rotationCount) + i
        invariant requestCount == old(requestCount)
        invariant FirstPass(op, n, startIndex, i, tried, lastError) == Call(op, n, startIndex)
      {
        var result := op(|tried|, currentIndex);
        match result {
          case Ok(_) =>
            FirstPassStops(op, n, startIndex, i, tried, lastError);
            tried := tried + [currentIndex];
            return true, result, tried, lastError;
          case Fail(e) =>
            if IsRateLimited(e) {
              FirstPassRotates(op, n, startIndex, i, tried, lastError);
              tried := tried + [currentIndex];
              lastError := Some(e);
              rotationCount := rotationCount + 1;
              RotateStep(startIndex, i, n);
              currentIndex := (currentIndex + 1) % n;
            } else {
              FirstPassStops(op, n, startIndex, i, tried, lastError);
              tried := tried + [currentIndex];
              return true, result, tried, Some(e);
            }
        }
        i := i + 1;
      }
      ModUnique(startIndex + n, n, 1, startIndex);
      done, outcome := false, Fail(Exhausted);
    }

    /** The backoff loop of `executeWithRetry`: up to five more attempts on
        the start endpoint, with doubling waits; when all are rate limited
        the last first-pass error is rethrown. */
    method RetryBackoff(op: Operation, startIndex: nat, tried0: seq<nat>, lastError: Option<ErrorInfo>)
      returns (outcome: Outcome, tried: seq<nat>, waits: seq<nat>)
      requires Valid() && startIndex < |urls|
      modifies this
      ensures Valid() && requestCount == old(requestCount) && rotationCount == old(rotationCount)
      ensures currentIndex == startIndex
      ensures Run(outcome, tried, waits, startIndex, |urls|)
           == Backoff(op, |urls|, startIndex, 0, InitialBackoff, tried0, [], lastError)
    {
      var n := |urls|;
      tried, waits := tried0, [];
      currentIndex := startIndex;
      var backoffTime := InitialBackoff;
      var retry := 0;
      while retry < MaxRetries
        invariant retry <= MaxRetries && currentIndex == startIndex
        invariant rotationCount == old(rotationCount) && requestCount == old(requestCount)
        invariant Backoff(op, n, startIndex, retry, backoffTime, tried, waits, lastError)
               == Backoff(op, n, startIndex, 0, InitialBackoff, tried0, [], lastError)
      {
        currentIndex := startIndex;
        var result := op(|tried|, currentIndex);
        match result {
          case Ok(_) =>
            BackoffStops(op, n, startIndex, retry, backoffTime, tried, waits, lastError);
            waits := waits + [backoffTime];
            tried := tried + [currentIndex];
            return result, tried, waits;
          case Fail(e) =>
            if !IsRateLimitedRetry(e) {
              BackoffStops(op, n, startIndex, retry, backoffTime, tried, waits, lastError);
              waits := waits + [backoffTime];
              tried := tried + [currentIndex];
              return result, tried, waits;
            }
            BackoffRetries(op, n, startIndex, retry, backoffTime, tried, waits, lastError);
            waits := waits + [backoffTime];
            tried := tried + [currentIndex];
            backoffTime := Min(backoffTime * 2, MaxBackoff);
        }
        retry := retry + 1;
      }
      outcome := Fail(lastError.GetOr(Exhausted));
    }
  }

  /** Rotating once more from `start + i` reaches `start + i + 1`, modulo `n`. */
  lemma RotateStep(start: nat, i: nat, n: nat)
    requires 0 < n
    ensures ((start + i) % n + 1) % n == (start + i + 1) % n
  {
    var q := start + i;
    var d, r := q / n, q % n;
    assert q == d * n + r;
    if r + 1 < n {
      ModUnique(q + 1, n, d, r + 1);
      ModUnique(r + 1, n, 0, r + 1);
    } else {
      assert q + 1 == (d + 1) * n + 0;
      ModUnique(q + 1, n, d + 1, 0);
      ModUnique(r + 1, n, 1, 0);
    }
  }

  lemma MulAtLeast(k: int, n: int)
    requires k >= 1 && n > 0
    ensures k * n >= n
  {
    assert k * n == (k - 1) * n + n;
    assert (k - 1) * n >= 0;
  }

  /** The remainder is the unique `r` with `x == d * n + r` and `0 <= r < n`. */
  lemma ModUnique(x: int, n: int, d: int, r: int)
    requires 0 < n && 0 <= r < n && x == d * n + r
    ensures x % n == r
  {
    var d' := x / n;
    var r' := x % n;
    assert x == d' * n + r';
    if d' > d {
      assert d' * n - d * n == (d' - d) * n;
      MulAtLeast(d' - d, n);
    } else if d' < d {
      assert d * n - d' * n == (d - d') * n;
      MulAtLeast(d - d', n);
    }
  }

  // ----------------------------------------------------------- the factory

  /** The ten mainnet endpoints of `createSuiClientWithRateLimitHandling`. */
  const DefaultEndpoints: seq<string> := [
    "https://fullnode.mainnet.sui.io:443",
    "https://mainnet.suiet.app",
    "https://rpc-mainnet.suiscan.xyz",
    "https://mainnet.sui.rpcpool.com",
    "https://sui-mainnet.nodeinfra.com",
    "https://mainnet-rpc.sui.chainbase.online",
    "https://sui-mainnet-ca-1.cosmostation.io",
    "https://sui-mainnet-ca-2.cosmostation.io",
    "https://sui-mainnet-us-1.cosmostation.io",
    "https://sui-mainnet-us-2.cosmostation.io"
  ]

  /** `Array.from(new Set(urls))` over the defaults changes nothing: the ten
      URLs are distinct and non-empty. */
  lemma DefaultEndpointsDistinct()
    ensures Dedup(DefaultEndpoints) == DefaultEndpoints
    ensures NonEmpty(DefaultEndpoints) == DefaultEndpoints
    ensures |DefaultEndpoints| == 10 && forall i :: 0 <= i < 10 ==> DefaultEndpoints[i] != ""
  {
    assert NoDup(DefaultEndpoints);
    DedupOfNoDup(DefaultEndpoints);
    NonEmptyKeepsAll(DefaultEndpoints);
  }

  /** The factory: a switch over the de-duplicated default endpoints. */
  method CreateDefault() returns (s: RateLimitSwitch)
    ensures fresh(s) && s.Valid() && s.urls == DefaultEndpoints && |s.urls| == 10 && s.currentIndex == 0
  {
    var uniqueUrls := Dedup(DefaultEndpoints);
    DefaultEndpointsDistinct();
    s := new RateLimitSwitch(uniqueUrls);
  }
}
