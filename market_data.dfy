/** The market-data client of `src/lib/api.ts`: a time-to-live cache in front
    of a first-in first-out request queue that runs one provider call at a
    time and waits 12 seconds after each, the validation each call applies
    to the provider's answer, and the two entry points that never fail.

    Time is a logical clock in milliseconds. The network is a function from
    the URL and the time a call starts to the response; the random draws of
    the projection are a function from the point's index. */
module MarketData {
  import opened Wrappers
  import opened JsonValues
  import opened TimeRanges
  import opened Quotes
  import opened StockData

  /** `CACHE_DURATION`: one minute. */
  const CacheDuration: nat := 60000
  /** The pause after every queued call (five calls a minute). */
  const RequestSpacing: nat := 12000

  datatype CacheEntry = CacheEntry(data: Json, timestamp: nat)

  /** What `fetch` yields: the status flag and code, the body as parsed by
      `response.json()` (`None` when it is not JSON), and how long the call
      took until the body was read. */
  datatype HttpResponse = HttpResponse(ok: bool, status: int, body: Option<Json>, latency: nat)

  type Network = (string, nat) -> HttpResponse

  /** The errors a queued call rejects with, in the order they are checked. */
  datatype FetchError =
    | HttpStatus(status: int)
    | BadJson
    | NullBody
    | ProviderError(message: Json)
    | RateLimited
    | NoData

  /** A queued task: the URL to fetch and the key its result is cached under. */
  datatype Request = Request(url: string, cacheKey: string)

  /** One task as it ran: started at `start`, its response read at `finish`. */
  datatype Run = Run(request: Request, start: nat, finish: nat, outcome: Result<Json, FetchError>)

  /** The state after the queue has drained, and the tasks it ran. */
  datatype Drained = Drained(cache: map<string, CacheEntry>, clock: nat, runs: seq<Run>)

  /** `Date.now() - cached.timestamp < CACHE_DURATION`. */
  predicate Fresh(entry: CacheEntry, now: nat) {
    now - entry.timestamp < CacheDuration
  }

  predicate Hit(cache: map<string, CacheEntry>, now: nat, key: string) {
    key in cache && Fresh(cache[key], now)
  }

  /** A response that passes every check of a queued task. */
  predicate Accepted(response: HttpResponse) {
    && response.ok && response.body.Some?
    && var data := response.body.value;
    && data != Null
    && !Truthy(Get(data, "Error Message").GetOr(Null))
    && !Truthy(Get(data, "Note").GetOr(Null))
    && Truthy(data) && KeyCount(data) > 0
  }

  /** The checks of a queued task, first failing one wins: HTTP status, a
      body that is not JSON, a `null` body (reading a member of it throws),
      `Error Message`, `Note`, then a falsy body or one without keys. */
  function Validate(response: HttpResponse): (r: Result<Json, FetchError>)
    ensures r.Success? <==> Accepted(response)
    ensures Accepted(response) ==> r == Success(response.body.value)
  {
    if !response.ok then Failure(HttpStatus(response.status))
    else if response.body.None? then Failure(BadJson)
    else
      var data := response.body.value;
      if data == Null then Failure(NullBody)
      else if Truthy(Get(data, "Error Message").GetOr(Null)) then
        Failure(ProviderError(Get(data, "Error Message").value))
      else if Truthy(Get(data, "Note").GetOr(Null)) then Failure(RateLimited)
      else if !Truthy(data) || KeyCount(data) == 0 then Failure(NoData)
      else Success(data)
  }

  /** The checks come in order, and the first that fails names the error:
      an HTTP error hides every other fault, then a body that is not JSON,
      a `null` body, a provider error message, a rate-limit note, and last
      a falsy body or one without keys. */
  lemma ValidateOrder(response: HttpResponse)
    ensures !response.ok ==> Validate(response) == Failure(HttpStatus(response.status))
    ensures response.ok && response.body.None? ==> Validate(response) == Failure(BadJson)
    ensures response.ok && response.body == Some(Null) ==> Validate(response) == Failure(NullBody)
    ensures response.ok && response.body.Some? && response.body.value != Null &&
            Truthy(Get(response.body.value, "Error Message").GetOr(Null))
            ==> Validate(response) == Failure(ProviderError(Get(response.body.value, "Error Message").value))
    ensures response.ok && response.body.Some? && response.body.value != Null &&
            !Truthy(Get(response.body.value, "Error Message").GetOr(Null)) &&
            Truthy(Get(response.body.value, "Note").GetOr(Null))
            ==> Validate(response) == Failure(RateLimited)
    ensures response.ok && response.body.Some? && response.body.value != Null &&
            !Truthy(Get(response.body.value, "Error Message").GetOr(Null)) &&
            !Truthy(Get(response.body.value, "Note").GetOr(Null)) &&
            (!Truthy(response.body.value) || KeyCount(response.body.value) == 0)
            ==> Validate(response) == Failure(NoData)
  {
  }

  /** One task of the drain loop, started at `clock`: the cache written on
      success with the time the body was read. */
  function RunOne(cache: map<string, CacheEntry>, clock: nat, request: Request, net: Network): (Run, map<string, CacheEntry>) {
    var response := net(request.url, clock);
    var finish := clock + response.latency;
    var outcome := Validate(response);
    var cache' := if outcome.Success? then cache[request.cacheKey := CacheEntry(outcome.value, finish)] else cache;
    (Run(request, clock, finish, outcome), cache')
  }

  /** The whole drain of `pending`, one task after another, each followed by
      the pause; a failing task does not stop it. */
  function DrainSpec(cache: map<string, CacheEntry>, clock: nat, pending: seq<Request>, net: Network): (d: Drained)
    ensures |d.runs| == |pending|
    ensures d.clock >= clock + RequestSpacing * |pending|
    decreases |pending|
  {
    if pending == [] then Drained(cache, clock, [])
    else
      var (run, cache') := RunOne(cache, clock, pending[0], net);
      var rest := DrainSpec(cache', run.finish + RequestSpacing, pending[1..], net);
      Drained(rest.cache, rest.clock, [run] + rest.runs)
  }

  /** The first task of a drain, and the drain of the rest after it. */
  lemma DrainUnfold(cache: map<string, CacheEntry>, clock: nat, pending: seq<Request>, net: Network)
    requires pending != []
    ensures var (run, cache') := RunOne(cache, clock, pending[0], net);
      var rest := DrainSpec(cache', run.finish + RequestSpacing, pending[1..], net);
      var d := DrainSpec(cache, clock, pending, net);
      && run.request == pending[0] && run.start == clock <= run.finish
      && d.runs == [run] + rest.runs && d.clock == rest.clock && d.cache == rest.cache
  {
  }

  /** Each task runs once, in queue order, and finishes no earlier than it
      starts; the first starts at once. */
  lemma {:induction false} DrainRequests(cache: map<string, CacheEntry>, clock: nat, pending: seq<Request>, net: Network)
    ensures var d := DrainSpec(cache, clock, pending, net);
      && (forall i :: 0 <= i < |pending| ==> d.runs[i].request == pending[i] && d.runs[i].start <= d.runs[i].finish)
      && (|pending| > 0 ==> d.runs[0].start == clock)
    decreases |pending|
  {
    if pending != [] {
      var (run, cache') := RunOne(cache, clock, pending[0], net);
      var rest := DrainSpec(cache', run.finish + RequestSpacing, pending[1..], net);
      var d := DrainSpec(cache, clock, pending, net);
      DrainUnfold(cache, clock, pending, net);
      DrainRequests(cache', run.finish + RequestSpacing, pending[1..], net);
      forall i | 0 < i < |pending|
        ensures d.runs[i].request == pending[i] && d.runs[i].start <= d.runs[i].finish
      {
        assert d.runs[i] == rest.runs[i - 1] && pending[i] == pending[1..][i - 1];
      }
    }
  }

  /** Each task after the first starts at least 12 seconds after the one
      before it finished, and the drain ends at least 12 seconds after every
      start. */
  lemma {:induction false} DrainGaps(cache: map<string, CacheEntry>, clock: nat, pending: seq<Request>, net: Network)
    ensures var d := DrainSpec(cache, clock, pending, net);
      && (forall i :: 0 < i < |pending| ==> d.runs[i].start >= d.runs[i - 1].finish + RequestSpacing)
      && (forall i :: 0 <= i < |pending| ==> d.clock >= d.runs[i].start + RequestSpacing)
    decreases |pending|
  {
    if pending != [] {
      var (run, cache') := RunOne(cache, clock, pending[0], net);
      var rest := DrainSpec(cache', run.finish + RequestSpacing, pending[1..], net);
      var d := DrainSpec(cache, clock, pending, net);
      DrainUnfold(cache, clock, pending, net);
      DrainGaps(cache', run.finish + RequestSpacing, pending[1..], net);
      DrainRequests(cache', run.finish + RequestSpacing, pending[1..], net);
      forall i | 0 < i < |pending|
        ensures d.runs[i].start >= d.runs[i - 1].finish + RequestSpacing
      {
        assert d.runs[i] == rest.runs[i - 1];
        if i > 1 {
          assert d.runs[i - 1] == rest.runs[i - 2];
        }
      }
      forall i | 0 <= i < |pending|
        ensures d.clock >= d.runs[i].start + RequestSpacing
      {
        if i > 0 {
          assert d.runs[i] == rest.runs[i - 1];
        }
      }
    }
  }

  /** Tasks run in the order they were queued, each exactly once; the first
      starts at once, every later one at least 12 seconds after the one
      before, and the queue goes idle no sooner than 12 seconds after the
      last began. */
  lemma DrainOrder(cache: map<string, CacheEntry>, clock: nat, pending: seq<Request>, net: Network)
    ensures var d := DrainSpec(cache, clock, pending, net);
      && (forall i :: 0 <= i < |pending| ==> d.runs[i].request == pending[i])
      && (forall i :: 0 <= i < |pending| ==> d.runs[i].start <= d.runs[i].finish)
      && (|pending| > 0 ==> d.runs[0].start == clock)
      && (forall i :: 0 < i < |pending| ==> d.runs[i].start >= d.runs[i - 1].finish + RequestSpacing)
      && (forall i :: 0 <= i < |pending| ==> d.clock >= d.runs[i].start + RequestSpacing)
  {
    DrainRequests(cache, clock, pending, net);
    DrainGaps(cache, clock, pending, net);
  }

  /** Consecutive task starts are at least 12 seconds apart, so no more than
      five calls start in any one minute. */
  lemma {:induction false} DrainSpacing(cache: map<string, CacheEntry>, clock: nat, pending: seq<Request>, net: Network, i: nat, j: nat)
    requires i <= j < |pending|
    ensures var d := DrainSpec(cache, clock, pending, net);
      d.runs[j].start >= d.runs[i].start + RequestSpacing * (j - i)
    decreases j - i
  {
    DrainOrder(cache, clock, pending, net);
    if i < j {
      DrainSpacing(cache, clock, pending, net, i, j - 1);
    }
  }

  /** A key no successful task wrote keeps its old entry after a drain, or
      stays absent: the cache is written only by tasks that pass validation. */
  lemma {:induction false} DrainKeepsUnwritten(cache: map<string, CacheEntry>, clock: nat, pending: seq<Request>, net: Network, key: string)
    requires forall i :: 0 <= i < |pending| && pending[i].cacheKey == key ==>
      DrainSpec(cache, clock, pending, net).runs[i].outcome.Failure?
    ensures var d := DrainSpec(cache, clock, pending, net);
      (key in d.cache <==> key in cache) && (key in cache ==> d.cache[key] == cache[key])
    decreases |pending|
  {
    if pending != [] {
      var (run, cache') := RunOne(cache, clock, pending[0], net);
      var rest := DrainSpec(cache', run.finish + RequestSpacing, pending[1..], net);
      var d := DrainSpec(cache, clock, pending, net);
      assert d.runs == [run] + rest.runs;
      assert d.runs[0] == run;
      forall i | 0 <= i < |pending[1..]| && pending[1..][i].cacheKey == key
        ensures rest.runs[i].outcome.Failure?
      {
        assert d.runs[i + 1] == rest.runs[i];
        assert pending[i + 1] == pending[1..][i];
      }
      DrainKeepsUnwritten(cache', run.finish + RequestSpacing, pending[1..], net, key);
    }
  }

  /** After a drain a key holds the data of the last successful task for
      it, stamped with the time that task's body was read. */
  lemma {:induction false} DrainLastWrite(cache: map<string, CacheEntry>, clock: nat, pending: seq<Request>, net: Network, key: string, i: nat)
    requires i < |pending| && pending[i].cacheKey == key
    requires DrainSpec(cache, clock, pending, net).runs[i].outcome.Success?
    requires forall j :: i < j < |pending| && pending[j].cacheKey == key ==>
      DrainSpec(cache, clock, pending, net).runs[j].outcome.Failure?
    ensures var d := DrainSpec(cache, clock, pending, net);
      key in d.cache && d.cache[key] == CacheEntry(d.runs[i].outcome.value, d.runs[i].finish)
    decreases |pending|
  {
    var (run, cache') := RunOne(cache, clock, pending[0], net);
    var rest := DrainSpec(cache', run.finish + RequestSpacing, pending[1..], net);
    var d := DrainSpec(cache, clock, pending, net);
    assert d.runs == [run] + rest.runs;
    forall j | i <= j < |pending[1..]| && pending[1..][j].cacheKey == key
      ensures rest.runs[j].outcome.Failure?
    {
      assert d.runs[j + 1] == rest.runs[j];
      assert pending[j + 1] == pending[1..][j];
    }
    if i == 0 {
      assert d.runs[0] == run;
      assert run.request == pending[0];
      DrainKeepsUnwritten(cache', run.finish + RequestSpacing, pending[1..], net, key);
    } else {
      assert d.runs[i] == rest.runs[i - 1];
      DrainLastWrite(cache', run.finish + RequestSpacing, pending[1..], net, key, i - 1);
    }
  }

  /** The drain goes idle 12 seconds after its last task's body was read. */
  lemma {:induction false} DrainClock(cache: map<string, CacheEntry>, clock: nat, pending: seq<Request>, net: Network)
    requires pending != []
    ensures var d := DrainSpec(cache, clock, pending, net);
      d.clock == d.runs[|pending| - 1].finish + RequestSpacing
    decreases |pending|
  {
    var (run, cache') := RunOne(cache, clock, pending[0], net);
    var rest := DrainSpec(cache', run.finish + RequestSpacing, pending[1..], net);
    var d := DrainSpec(cache, clock, pending, net);
    assert d.runs == [run] + rest.runs;
    if |pending| > 1 {
      DrainClock(cache', run.finish + RequestSpacing, pending[1..], net);
      assert d.runs[|pending| - 1] == rest.runs[|pending| - 2];
    }
  }

  /** The result `makeRequest` settles with: the cached data when the entry
      is fresh, otherwise the outcome of its own task, which runs after every
      task already queued. */
  function RequestOutcome(cache: map<string, CacheEntry>, clock: nat, pending: seq<Request>, request: Request, net: Network): Result<Json, FetchError> {
    if Hit(cache, clock, request.cacheKey) then Success(cache[request.cacheKey].data)
    else DrainSpec(cache, clock, pending + [request], net).runs[|pending|].outcome
  }

  /** A fresh entry is served as is; otherwise the task queued is this
      request, and the data served is data that passed validation. */
  lemma RequestOutcomeSpec(cache: map<string, CacheEntry>, clock: nat, pending: seq<Request>, request: Request, net: Network)
    ensures Hit(cache, clock, request.cacheKey) ==>
      RequestOutcome(cache, clock, pending, request, net) == Success(cache[request.cacheKey].data)
    ensures !Hit(cache, clock, request.cacheKey) ==>
      var d := DrainSpec(cache, clock, pending + [request], net);
      && d.runs[|pending|].request == request
      && RequestOutcome(cache, clock, pending, request, net) == d.runs[|pending|].outcome
      && (d.runs[|pending|].outcome.Success? ==>
            d.runs[|pending|].outcome == Validate(net(request.url, d.runs[|pending|].start)))
  {
    if !Hit(cache, clock, request.cacheKey) {
      DrainOrder(cache, clock, pending + [request], net);
      RunIsValidated(cache, clock, pending + [request], net, |pending|);
    }
  }

  /** A request that missed the cache and succeeded leaves a fresh entry:
      the same request, made within 48 seconds of the queue going idle (60
      seconds of the body being read), is answered from the cache with the
      same data and queues nothing. */
  lemma RepeatIsServedFromCache(cache: map<string, CacheEntry>, clock: nat, pending: seq<Request>, request: Request, net: Network, elapsed: nat)
    requires !Hit(cache, clock, request.cacheKey)
    requires RequestOutcome(cache, clock, pending, request, net).Success?
    requires elapsed < CacheDuration - RequestSpacing
    ensures var d := DrainSpec(cache, clock, pending + [request], net);
      && Hit(d.cache, d.clock + elapsed, request.cacheKey)
      && d.cache[request.cacheKey].data == RequestOutcome(cache, clock, pending, request, net).value
      && RequestOutcome(d.cache, d.clock + elapsed, [], request, net) == RequestOutcome(cache, clock, pending, request, net)
  {
    var queue := pending + [request];
    var d := DrainSpec(cache, clock, queue, net);
    DrainOrder(cache, clock, queue, net);
    DrainClock(cache, clock, queue, net);
    DrainLastWrite(cache, clock, queue, net, request.cacheKey, |pending|);
  }

  /** Every task's outcome is the validation of the response to its own URL
      at the time it started. */
  lemma {:induction false} RunIsValidated(cache: map<string, CacheEntry>, clock: nat, pending: seq<Request>, net: Network, i: nat)
    requires i < |pending|
    ensures var run := DrainSpec(cache, clock, pending, net).runs[i];
      run.outcome == Validate(net(run.request.url, run.start))
      && run.finish == run.start + net(run.request.url, run.start).latency
    decreases |pending|
  {
    if i > 0 {
      var (run, cache') := RunOne(cache, clock, pending[0], net);
      RunIsValidated(cache', run.finish + RequestSpacing, pending[1..], net, i - 1);
    }
  }

  /** The quote `getStockQuote` returns for the settled request. */
  function QuoteFromOutcome(outcome: Result<Json, FetchError>): Quote {
    match outcome
    case Success(data) => NormalizeQuote(data)
    case Failure(_) => EmptyQuote
  }

  /** The data `getStockData` returns for the settled request. */
  function StockDataFromOutcome(outcome: Result<Json, FetchError>, range: TimeRange, draw: nat -> real): StockData {
    match outcome
    case Success(data) => StockDataFromPayload(data, range, draw)
    case Failure(_) => EmptyStockData
  }

  /** A log of calls in which each call finished no earlier than it began,
      began at least 12 seconds after the previous one finished, and the
      clock `now` is at least 12 seconds past the last finish. */
  ghost predicate Paced(log: seq<Run>, now: nat) {
    && (forall i :: 0 <= i < |log| ==> log[i].start <= log[i].finish)
    && (forall i :: 0 < i < |log| ==> log[i].start >= log[i - 1].finish + RequestSpacing)
    && (|log| > 0 ==> now >= log[|log| - 1].finish + RequestSpacing)
  }

  /** A call that starts at the clock keeps the log paced once the clock
      has moved 12 seconds past its finish. */
  lemma PacedAppend(log: seq<Run>, now: nat, run: Run)
    requires Paced(log, now)
    requires now <= run.start <= run.finish
    ensures Paced(log + [run], run.finish + RequestSpacing)
  {
    var log' := log + [run];
    forall i | 0 < i < |log'|
      ensures log'[i].start >= log'[i - 1].finish + RequestSpacing
    {
      if i < |log| {
        assert log'[i] == log[i] && log'[i - 1] == log[i - 1];
      }
    }
  }

  /** The module-level state of `src/lib/api.ts`: the cache, the task queue
      and the `isProcessingQueue` flag, with the clock and a record of the
      tasks that have run. */
  class MarketDataClient {
    var cache: map<string, CacheEntry>
    var pending: seq<Request>
    var draining: bool
    var now: nat
    var log: seq<Run>
    const apiKey: string

    /** A queue is only left non-empty while a drain loop is running, and
      the calls made so far are paced: each began no sooner than 12 seconds
      after the one before finished, and the clock is at least 12 seconds
      past the last. */
    ghost predicate Valid()
      reads this
    {
      && (!draining ==> pending == [])
      && Paced(log, now)
    }

    constructor(apiKey: string, start: nat)
      ensures Valid()
      ensures this.apiKey == apiKey && now == start
      ensures cache == map[] && pending == [] && !draining && log == []
    {
      this.apiKey := apiKey;
      cache := map[];
      pending := [];
      draining := false;
      now := start;
      log := [];
    }

    /** Time passes outside the client. */
    method Tick(elapsed: nat)
      requires Valid()
      modifies this
      ensures Valid()
      ensures now == old(now) + elapsed
      ensures cache == old(cache) && pending == old(pending) && draining == old(draining) && log == old(log)
    {
      now := now + elapsed;
    }

    /** `processQueue()` up to its first `await`: a call while a drain is
      running returns at once; otherwise it raises the flag and the caller
      becomes the drain loop (`started`). */
    method ProcessQueue() returns (started: bool)
      modifies this
      ensures started <==> !old(draining)
      ensures draining
      ensures cache == old(cache) && pending == old(pending) && now == old(now) && log == old(log)
    {
      if draining {
        return false;
      }
      draining := true;
      return true;
    }

    /** `requestQueue.push(request)` followed by `processQueue()`. */
    method Enqueue(request: Request) returns (started: bool)
      requires Valid()
      modifies this
      ensures Valid() && draining
      ensures started <==> !old(draining)
      ensures pending == old(pending) + [request]
      ensures cache == old(cache) && now == old(now) && log == old(log)
    {
      pending := pending + [request];
      started := ProcessQueue();
    }

    /** One turn of the drain loop: with the queue empty it lowers the flag;
      otherwise it takes the first task, runs it (writing the cache only on
      success, stamped with the time the body was read) and waits 12 s. */
    method DrainStep(net: Network)
      requires Valid() && draining
      modifies this
      ensures Valid()
      ensures old(pending) == [] ==>
        !draining && cache == old(cache) && now == old(now) && log == old(log) && pending == []
      ensures old(pending) != [] ==>
        var (run, cache') := RunOne(old(cache), old(now), old(pending)[0], net);
        && draining && pending == old(pending)[1..]
        && log == old(log) + [run] && cache == cache' && now == run.finish + RequestSpacing
    {
      if pending == [] {
        draining := false;
        return;
      }
      var request := pending[0];
      pending := pending[1..];
      var response := net(request.url, now);
      var finish := now + response.latency;
      var outcome := Validate(response);
      if outcome.Success? {
        cache := cache[request.cacheKey := CacheEntry(outcome.value, finish)];
      }
      var run := Run(request, now, finish, outcome);
      assert (run, cache) == RunOne(old(cache), old(now), old(pending)[0], net);
      PacedAppend(log, now, run);
      log := log + [run];
      now := finish + RequestSpacing;
    }

    /** The drain loop until the queue is empty and the flag is down: the
      result is `DrainSpec` of the queue it found. */
    method RunToIdle(net: Network)
      requires Valid()
      modifies this
      ensures Valid() && !draining && pending == []
      ensures var d := DrainSpec(old(cache), old(now), old(pending), net);
        cache == d.cache && now == d.clock && log == old(log) + d.runs
    {
      ghost var d0 := DrainSpec(cache, now, pending, net);
      ghost var log0 := log;
      while draining
        invariant Valid()
        invariant var d := DrainSpec(cache, now, pending, net);
          d.cache == d0.cache && d.clock == d0.clock && log + d.runs == log0 + d0.runs
        decreases |pending| + (if draining then 1 else 0)
      {
        ghost var logBefore := log;
        ghost var before := DrainSpec(cache, now, pending, net);
        DrainStep(net);
        if before.runs != [] {
          var after := DrainSpec(cache, now, pending, net);
          assert before.runs == [log[|log| - 1]] + after.runs;
          assert log + after.runs == logBefore + before.runs;
        }
      }
    }

    /** `makeRequest(url, cacheKey)`: a fresh cache entry is returned without
      queueing anything; otherwise the request is queued behind the tasks
      already waiting, the queue is drained, and the request settles with
      its own task's outcome. */
    method MakeRequest(url: string, cacheKey: string, net: Network) returns (result: Result<Json, FetchError>)
      requires Valid()
      modifies this
      ensures Valid()
      ensures result == RequestOutcome(old(cache), old(now), old(pending), Request(url, cacheKey), net)
      ensures Hit(old(cache), old(now), cacheKey) ==>
        cache == old(cache) && pending == old(pending) && draining == old(draining) && now == old(now) && log == old(log)
      ensures !Hit(old(cache), old(now), cacheKey) ==>
        var d := DrainSpec(old(cache), old(now), old(pending) + [Request(url, cacheKey)], net);
        && cache == d.cache && now == d.clock && log == old(log) + d.runs
        && pending == [] && !draining
      ensures !Hit(old(cache), old(now), cacheKey) && result.Success? ==>
        Hit(cache, now, cacheKey) && cache[cacheKey].data == result.value
    {
      if cacheKey in cache && Fresh(cache[cacheKey], now) {
        return Success(cache[cacheKey].data);
      }
      var index := |log| + |pending|;
      var request := Request(url, cacheKey);
      var started := Enqueue(request);
      RunToIdle(net);
      result := log[index].outcome;
      RequestOutcomeSpec(old(cache), old(now), old(pending), request, net);
      if result.Success? {
        RepeatIsServedFromCache(old(cache), old(now), old(pending), request, net, 0);
      }
    }

    /** `getStockQuote(symbol)`: the zero quote for an empty symbol (nothing
      is requested) or a failed request, otherwise the normalised quote. */
    method GetStockQuote(symbol: string, net: Network) returns (quote: Quote)
      requires Valid()
      modifies this
      ensures Valid()
      ensures symbol == [] ==> quote == EmptyQuote && unchanged(this)
      ensures symbol != [] ==> quote == QuoteFromOutcome(RequestOutcome(old(cache), old(now), old(pending),
        Request(QuoteUrl(symbol, apiKey), QuoteCacheKey(symbol)), net))
      ensures symbol != [] && Hit(old(cache), old(now), QuoteCacheKey(symbol)) ==>
        cache == old(cache) && pending == old(pending) && draining == old(draining) && now == old(now) && log == old(log)
      ensures symbol != [] && !Hit(old(cache), old(now), QuoteCacheKey(symbol)) ==>
        var d := DrainSpec(old(cache), old(now), old(pending) + [Request(QuoteUrl(symbol, apiKey), QuoteCacheKey(symbol))], net);
        && cache == d.cache && now == d.clock && log == old(log) + d.runs && pending == [] && !draining
        && (d.runs[|old(pending)|].outcome.Success? ==> Hit(cache, now, QuoteCacheKey(symbol)))
    {
      if symbol == [] {
        return EmptyQuote;
      }
      var outcome := MakeRequest(QuoteUrl(symbol, apiKey), QuoteCacheKey(symbol), net);
      quote := QuoteFromOutcome(outcome);
    }

    /** `getStockData(symbol, timeRange = '1D')`: the empty data for an empty
      symbol or an unknown range (nothing is requested), or when the request
      fails or its payload holds no usable series; otherwise the processed
      series, with projections for `1D`. */
    method GetStockData(symbol: string, timeRange: Option<string>, net: Network, draw: nat -> real) returns (data: StockData)
      requires Valid()
      modifies this
      ensures Valid()
      ensures var tr := timeRange.GetOr("1D");
        symbol == [] || ParseTimeRange(tr).None? ==> data == EmptyStockData && unchanged(this)
      ensures var tr := timeRange.GetOr("1D");
        symbol != [] && ParseTimeRange(tr).Some? ==>
          var range := ParseTimeRange(tr).value;
          data == StockDataFromOutcome(RequestOutcome(old(cache), old(now), old(pending),
            Request(Href(BuildApiUrl(symbol, RangeConfig(range), apiKey)), DataCacheKey(symbol, tr)), net), range, draw)
      ensures var tr := timeRange.GetOr("1D");
        symbol != [] && ParseTimeRange(tr).Some? && Hit(old(cache), old(now), DataCacheKey(symbol, tr)) ==>
          cache == old(cache) && pending == old(pending) && draining == old(draining) && now == old(now) && log == old(log)
      ensures var tr := timeRange.GetOr("1D");
        symbol != [] && ParseTimeRange(tr).Some? && !Hit(old(cache), old(now), DataCacheKey(symbol, tr)) ==>
          var range := ParseTimeRange(tr).value;
          var d := DrainSpec(old(cache), old(now),
            old(pending) + [Request(Href(BuildApiUrl(symbol, RangeConfig(range), apiKey)), DataCacheKey(symbol, tr))], net);
          && cache == d.cache && now == d.clock && log == old(log) + d.runs && pending == [] && !draining
          && (d.runs[|old(pending)|].outcome.Success? ==> Hit(cache, now, DataCacheKey(symbol, tr)))
    {
      var tr := timeRange.GetOr("1D");
      if symbol == [] {
        return EmptyStockData;
      }
      var config := GetTimeRangeConfig(tr);
      if config.Failure? {
        return EmptyStockData;
      }
      var range := ParseTimeRange(tr).value;
      var url := Href(BuildApiUrl(symbol, config.value, apiKey));
      var outcome := MakeRequest(url, DataCacheKey(symbol, tr), net);
      data := StockDataFromOutcome(outcome, range, draw);
    }
  }
}
