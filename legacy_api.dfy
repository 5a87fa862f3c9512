/**
 * The legacy front-end's API helpers: the URL a `GET` goes to, the retry
 * wrapper with its doubling back-off, the time-limited result cache and the
 * order in which `createEnhancedAPI` stacks the wrappers. The network, the
 * timers and the clock are not modelled: each attempt's outcome and each
 * reading of the clock are parameters.
 */
module LegacyApi {
  import opened Wrappers
  import opened Seqs
  import opened Strings

  const ApiBaseUrl: string := "/api"
  const DefaultMaxRetries: int := 3
  const DefaultRetryDelay: real := 1000.0
  const DefaultCacheTtl: int := 300000

  // ---------------------------------------------------------------------------
  // URLs
  // ---------------------------------------------------------------------------

  /**
   * `new URLSearchParams(params).toString()`: each pair as `key=value`,
   * joined by `&`. The percent-encoding is the parameter `encode`.
   */
  function QueryString(params: seq<(string, string)>, encode: string -> string): string {
    Join(Map(params, (p: (string, string)) => encode(p.0) + "=" + encode(p.1)), "&")
  }

  /** `HttpClient.get`: the endpoint, followed by `?` and the query string when that is non-empty. */
  function GetUrl(endpoint: string, params: seq<(string, string)>, encode: string -> string): string {
    var qs := QueryString(params, encode);
    if qs != "" then endpoint + "?" + qs else endpoint
  }

  /** `HttpClient.request`: the base URL in front of the endpoint. */
  function RequestUrl(baseUrl: string, endpoint: string): string {
    baseUrl + endpoint
  }

  /** Every pair contributes an `=`, so the query string is empty exactly when there are no parameters. */
  lemma QueryStringEmpty(params: seq<(string, string)>, encode: string -> string)
    ensures QueryString(params, encode) == "" <==> params == []
  {
    if params != [] {
      var parts := Map(params, (p: (string, string)) => encode(p.0) + "=" + encode(p.1));
      JoinHasFirst(parts, "&");
    }
  }

  lemma JoinHasFirst(parts: seq<string>, sep: string)
    requires parts != []
    ensures |Join(parts, sep)| >= |parts[0]|
  {
  }

  /**
   * A `GET` without parameters goes to the base URL followed by the
   * endpoint; with parameters, `?` and the query string follow. The path
   * `get` hands to `request` is the same without the base URL.
   */
  lemma GetUrlSpec(baseUrl: string, endpoint: string, params: seq<(string, string)>, encode: string -> string)
    ensures params == [] ==> GetUrl(endpoint, params, encode) == endpoint
    ensures params != [] ==> GetUrl(endpoint, params, encode) == endpoint + "?" + QueryString(params, encode)
    ensures params == [] ==> RequestUrl(baseUrl, GetUrl(endpoint, params, encode)) == baseUrl + endpoint
    ensures params != [] ==> RequestUrl(baseUrl, GetUrl(endpoint, params, encode)) == baseUrl + endpoint + "?" + QueryString(params, encode)
  {
    QueryStringEmpty(params, encode);
  }

  // ---------------------------------------------------------------------------
  // withRetry
  // ---------------------------------------------------------------------------

  /** How one call of the wrapped function ends. */
  datatype Outcome<T> = Ok(value: T) | Err(error: string)

  /** How the wrapped call ends: a value, or the last error (`undefined` when no attempt was made). */
  datatype RetryResult<T> = Succeeded(value: T) | Failed(lastError: Option<string>)

  function Pow2(i: nat): (r: nat)
    ensures r >= 1
  {
    if i == 0 then 1 else 2 * Pow2(i - 1)
  }

  /** The pause after failed attempt `i`. */
  function Pause(delay: real, i: nat): real {
    delay * Pow2(i) as real
  }

  /** The first `n` pauses of the doubling schedule: `delay`, `2 * delay`, `4 * delay`, ... */
  function Backoff(delay: real, n: nat): (r: seq<real>)
    ensures |r| == n
    ensures forall i :: 0 <= i < n ==> r[i] == Pause(delay, i)
  {
    seq(n, (i: int) requires 0 <= i < n => Pause(delay, i))
  }

  lemma BackoffNext(delay: real, n: nat)
    ensures Backoff(delay, n + 1) == Backoff(delay, n) + [Pause(delay, n)]
  {
    var a, b := Backoff(delay, n + 1), Backoff(delay, n) + [Pause(delay, n)];
    forall j | 0 <= j < |a| ensures a[j] == b[j] {
      if j < n {
        assert b[j] == Backoff(delay, n)[j];
      }
    }
  }

  /** The number of attempts the loop allows: `maxRetries`, or none when it is not positive. */
  function Attempts(maxRetries: int): nat {
    if maxRetries > 0 then maxRetries else 0
  }

  /** The first of the first `n` attempts that succeeds, or `n` when none does. */
  function FirstOk<T>(attempt: nat -> Outcome<T>, n: nat): (k: nat)
    ensures k <= n
    ensures k < n ==> attempt(k).Ok?
    ensures forall j :: 0 <= j < k ==> attempt(j).Err?
  {
    if n == 0 then 0
    else
      var k := FirstOk(attempt, n - 1);
      if k < n - 1 then k
      else if attempt(n - 1).Ok? then n - 1
      else n
  }

  /** What the wrapped call returns or throws. */
  function RetryOutcome<T>(attempt: nat -> Outcome<T>, maxRetries: int): RetryResult<T> {
    var n := Attempts(maxRetries);
    var k := FirstOk(attempt, n);
    if k < n then Succeeded(attempt(k).value)
    else if n == 0 then Failed(None)
    else Failed(Some(attempt(n - 1).error))
  }

  /** How many times the wrapped function is called. */
  function RetryCalls<T>(attempt: nat -> Outcome<T>, maxRetries: int): nat {
    var n := Attempts(maxRetries);
    var k := FirstOk(attempt, n);
    if k < n then k + 1 else n
  }

  /** The pauses taken: after failed attempt `i`, `delay * 2^i`, except after the last allowed attempt. */
  function RetryWaits<T>(attempt: nat -> Outcome<T>, maxRetries: int, delay: real): seq<real> {
    var n := Attempts(maxRetries);
    var k := FirstOk(attempt, n);
    var m := if k < n then k else if n == 0 then 0 else n - 1;
    Backoff(delay, m)
  }

  /**
   * `withRetry(apiFunction, maxRetries, delay)` called once: attempt `i`
   * ends as `attempt(i)`; the loop stops at the first success.
   */
  method WithRetry<T>(attempt: nat -> Outcome<T>, maxRetries: int, delay: real)
    returns (r: RetryResult<T>, calls: nat, waits: seq<real>)
    ensures r == RetryOutcome(attempt, maxRetries)
    ensures calls == RetryCalls(attempt, maxRetries)
    ensures waits == RetryWaits(attempt, maxRetries, delay)
  {
    var lastError: Option<string> := None;
    calls := 0;
    waits := [];
    var i := 0;
    while i < maxRetries
      invariant 0 <= i <= Attempts(maxRetries)
      invariant FirstOk(attempt, i) == i
      invariant calls == i
      invariant lastError == (if i == 0 then None else Some(attempt(i - 1).error))
      invariant waits == Backoff(delay, if i < maxRetries || i == 0 then i else i - 1)
      decreases maxRetries - i
    {
      var o := attempt(i);
      calls := calls + 1;
      if o.Ok? {
        r := Succeeded(o.value);
        RetrySucceedsAt(attempt, maxRetries, delay, i);
        return;
      }
      lastError := Some(o.error);
      if i < maxRetries - 1 {
        BackoffNext(delay, i);
        waits := waits + [Pause(delay, i)];
      }
      i := i + 1;
    }
    RetryExhausted(attempt, maxRetries, delay, i);
    r := Failed(lastError);
  }

  /** The first success, at attempt `i`, ends the call: its value, `i + 1` calls, and the pauses before it. */
  lemma RetrySucceedsAt<T>(attempt: nat -> Outcome<T>, maxRetries: int, delay: real, i: nat)
    requires i < Attempts(maxRetries) && FirstOk(attempt, i) == i && attempt(i).Ok?
    ensures RetryOutcome(attempt, maxRetries) == Succeeded(attempt(i).value)
    ensures RetryCalls(attempt, maxRetries) == i + 1
    ensures RetryWaits(attempt, maxRetries, delay) == Backoff(delay, i)
  {
    assert FirstOk(attempt, i + 1) == i;
    FirstOkStable(attempt, i + 1, Attempts(maxRetries));
  }

  /** With every allowed attempt failed, the call throws the last error after pausing between attempts. */
  lemma RetryExhausted<T>(attempt: nat -> Outcome<T>, maxRetries: int, delay: real, n: nat)
    requires n == Attempts(maxRetries) && FirstOk(attempt, n) == n
    ensures RetryOutcome(attempt, maxRetries) == Failed(if n == 0 then None else Some(attempt(n - 1).error))
    ensures RetryCalls(attempt, maxRetries) == n
    ensures RetryWaits(attempt, maxRetries, delay) == Backoff(delay, if n == 0 then 0 else n - 1)
  {
  }

  /** Once an attempt has succeeded, allowing more attempts does not move the first success. */
  lemma {:induction false} FirstOkStable<T>(attempt: nat -> Outcome<T>, n: nat, m: nat)
    requires n <= m && FirstOk(attempt, n) < n
    ensures FirstOk(attempt, m) == FirstOk(attempt, n)
    decreases m - n
  {
    if n < m {
      FirstOkStable(attempt, n, m - 1);
    }
  }

  /**
   * At most `maxRetries` calls and at least one when any is allowed; a
   * success is the value of the last call made, and a failure follows
   * `maxRetries` failed calls.
   */
  lemma RetryCallsSpec<T>(attempt: nat -> Outcome<T>, maxRetries: int)
    ensures RetryCalls(attempt, maxRetries) <= Attempts(maxRetries)
    ensures maxRetries > 0 ==> RetryCalls(attempt, maxRetries) >= 1
    ensures RetryOutcome(attempt, maxRetries).Succeeded? <==>
      exists j :: 0 <= j < Attempts(maxRetries) && attempt(j).Ok?
    ensures RetryOutcome(attempt, maxRetries).Succeeded? ==>
      attempt(RetryCalls(attempt, maxRetries) - 1) == Ok(RetryOutcome(attempt, maxRetries).value)
    ensures RetryOutcome(attempt, maxRetries).Failed? ==>
      RetryCalls(attempt, maxRetries) == Attempts(maxRetries)
      && forall j :: 0 <= j < Attempts(maxRetries) ==> attempt(j).Err?
  {
  }

  /** The pauses double, and together they last `delay * (2^w - 1)` for `w` pauses. */
  lemma {:induction false} RetryWaitTotal(waits: seq<real>, delay: real)
    requires waits == Backoff(delay, |waits|)
    ensures Sum(waits) == delay * (Pow2(|waits|) - 1) as real
  {
    if waits != [] {
      var w := |waits|;
      var prefix := waits[..w - 1];
      assert prefix == Backoff(delay, w - 1);
      RetryWaitTotal(prefix, delay);
      assert Sum(waits) == delay * (Pow2(w - 1) - 1) as real + delay * Pow2(w - 1) as real;
    }
  }

  /** With the defaults, a call is tried three times and waits at most 1000 + 2000 time units. */
  lemma DefaultRetrySchedule<T>(attempt: nat -> Outcome<T>)
    ensures RetryCalls(attempt, DefaultMaxRetries) <= 3
    ensures |RetryWaits(attempt, DefaultMaxRetries, DefaultRetryDelay)| <= 2
    ensures Sum(RetryWaits(attempt, DefaultMaxRetries, DefaultRetryDelay)) <= 3000.0
  {
    var waits := RetryWaits(attempt, DefaultMaxRetries, DefaultRetryDelay);
    RetryWaitTotal(waits, DefaultRetryDelay);
    assert Pow2(2) == 4;
    if |waits| == 1 {
      assert Pow2(1) == 2;
    }
  }

  // ---------------------------------------------------------------------------
  // withCache
  // ---------------------------------------------------------------------------

  /** A cache entry: the data and the clock reading when it was stored. */
  datatype Entry<T> = Entry(data: T, timestamp: int)

  /** The cached data for `key` if it is still fresh at time `now`. */
  function Lookup<T>(entries: map<string, Entry<T>>, ttl: int, key: string, now: int): (r: Option<T>)
    ensures r.Some? <==> key in entries && now - entries[key].timestamp < ttl
    ensures r.Some? ==> r.value == entries[key].data
  {
    if key in entries && now - entries[key].timestamp < ttl then Some(entries[key].data) else None
  }

  /**
   * Data stored at time `t` is served for `key` exactly while less than
   * `ttl` has passed, and storing it leaves every other key's lookup alone.
   */
  lemma StoreThenLookup<T>(entries: map<string, Entry<T>>, ttl: int, key: string, data: T, t: int, now: int)
    ensures Lookup(entries[key := Entry(data, t)], ttl, key, now) == (if now - t < ttl then Some(data) else None)
    ensures forall other :: other != key ==>
      Lookup(entries[key := Entry(data, t)], ttl, other, now) == Lookup(entries, ttl, other, now)
  {
  }

  /** An entry that has gone stale stays stale as the clock moves on. */
  lemma StaleStaysStale<T>(entries: map<string, Entry<T>>, ttl: int, key: string, now: int, later: int)
    requires now <= later && Lookup(entries, ttl, key, now).None?
    ensures Lookup(entries, ttl, key, later).None?
  {
  }

  /** The closure's `cache` map and its time to live. */
  class Cache<T> {
    var entries: map<string, Entry<T>>
    const ttl: int

    /** `withCache(apiFunction, ttl)`: an empty cache. */
    constructor (ttl: int)
      ensures entries == map[] && this.ttl == ttl
    {
      entries := map[];
      this.ttl := ttl;
    }

    /**
     * One call with argument key `key`, the clock reading `now` before the
     * lookup and `doneAt` after the wrapped call returns. A fresh entry is
     * served without calling; otherwise the wrapped function is called and
     * only a success is stored.
     */
    method Call(key: string, now: int, doneAt: int, fetch: Outcome<T>) returns (r: Outcome<T>, called: bool)
      modifies this
      ensures var hit := Lookup(old(entries), ttl, key, now);
        && called == hit.None?
        && (hit.Some? ==> r == Ok(hit.value) && entries == old(entries))
        && (hit.None? && fetch.Ok? ==> r == fetch && entries == old(entries)[key := Entry(fetch.value, doneAt)])
        && (hit.None? && fetch.Err? ==> r == fetch && entries == old(entries))
    {
      var hit := Lookup(entries, ttl, key, now);
      if hit.Some? {
        return Ok(hit.value), false;
      }
      called := true;
      r := fetch;
      if fetch.Ok? {
        entries := entries[key := Entry(fetch.value, doneAt)];
      }
    }
  }

  // ---------------------------------------------------------------------------
  // withErrorHandling and createEnhancedAPI
  // ---------------------------------------------------------------------------

  /** The toast text used when the error has no message. */
  const ApiFailedMessage := "API request failed"

  /** The message of the error toast: the error's message, or a fixed text when it has none. */
  function ErrorToastMessage(message: string): (r: string)
    ensures r != ""
    ensures message != "" ==> r == message
    ensures message == "" ==> r == ApiFailedMessage
  {
    if message != "" then message else ApiFailedMessage
  }

  /** One wrapper; its parameters are the values the wrapper is given. */
  datatype Layer =
    | ErrorHandling(context: string)
    | Loading(context: string)
    | Retry(maxRetries: int, retryDelay: real)
    | CacheLayer(cacheTtl: int)

  /**
   * The options of `createEnhancedAPI`. `errorHandling` and `loading` are
   * `None` when not given; an absent number is `None` and takes the wrapper's
   * default. `retry` and `cache` are the options' truthiness.
   */
  datatype EnhanceOptions = EnhanceOptions(
    errorHandling: Option<bool>, loading: Option<bool>, retry: bool, cache: bool,
    context: string, maxRetries: Option<int>, retryDelay: Option<real>, cacheTtl: Option<int>)

  /** The wrappers applied, innermost first. */
  function EnhancedLayers(o: EnhanceOptions): seq<Layer> {
    (if o.errorHandling != Some(false) then [ErrorHandling(o.context)] else [])
    + (if o.loading != Some(false) then [Loading(o.context)] else [])
    + (if o.retry then [Retry(o.maxRetries.GetOr(DefaultMaxRetries), o.retryDelay.GetOr(DefaultRetryDelay))] else [])
    + (if o.cache then [CacheLayer(o.cacheTtl.GetOr(DefaultCacheTtl))] else [])
  }

  function Rank(l: Layer): nat {
    match l
    case ErrorHandling(_) => 0
    case Loading(_) => 1
    case Retry(_, _) => 2
    case CacheLayer(_) => 3
  }

  /**
   * The wrappers come in the order error handling, loading, retry, cache,
   * each at most once; so when the cache is on it is the outermost wrapper
   * and a hit reaches neither the retry loop nor the wrapped function, and
   * retry repeats the call with error handling and loading inside it.
   */
  lemma EnhancedLayersOrder(o: EnhanceOptions)
    ensures var ls := EnhancedLayers(o);
      && (forall i, j :: 0 <= i < j < |ls| ==> Rank(ls[i]) < Rank(ls[j]))
      && (o.cache <==> ls != [] && ls[|ls| - 1].CacheLayer?)
      && (o.cache ==> ls[|ls| - 1] == CacheLayer(o.cacheTtl.GetOr(DefaultCacheTtl)))
      && (o.retry <==> exists i :: 0 <= i < |ls| && ls[i].Retry?)
      && (o.errorHandling != Some(false) <==> ls != [] && ls[0].ErrorHandling?)
      && |ls| <= 4
  {
    var ls := EnhancedLayers(o);
    var e := if o.errorHandling != Some(false) then [ErrorHandling(o.context)] else [];
    var l := if o.loading != Some(false) then [Loading(o.context)] else [];
    var r := if o.retry then [Retry(o.maxRetries.GetOr(DefaultMaxRetries), o.retryDelay.GetOr(DefaultRetryDelay))] else [];
    var c := if o.cache then [CacheLayer(o.cacheTtl.GetOr(DefaultCacheTtl))] else [];
    assert ls == e + l + r + c;
    if o.retry {
      assert ls[|e| + |l|] == r[0];
    }
    forall i | 0 <= i < |ls| && ls[i].Retry? ensures o.retry {
      assert ls[i] in e + l + r + c;
    }
  }
}
