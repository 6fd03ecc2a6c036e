/** `FastScraper` from src/lib.rs: construction, the retry loop of `fetch` and the
    one-attempt-per-URL batch of `fetch_many`. The network is an oracle that says
    what each request yields; sleeping is recorded as the list of delays slept. */
module Scraper {
  import opened Prelude
  import opened Http

  /** The tokio semaphore behind the optional rate limit, by its number of permits. */
  datatype Semaphore = Semaphore(permits: usize)

  /** The scraper's configuration. The reqwest client is represented by its request
      timeout; nothing about it changes after construction. */
  datatype FastScraper = FastScraper(timeoutMs: u64, maxRetries: u32, rateLimit: Option<Semaphore>)

  /** `FastScraper::new`. Building the reqwest client can fail inside the library;
      `buildError` says whether it does and with which message. */
  function New(timeoutMs: u64, maxRetries: u32, maxConcurrentRequests: Option<usize>,
               buildError: Option<string>): (r: Result<FastScraper>)
    ensures r.Err? <==> buildError.Some?
    ensures r.Err? ==> r.error == buildError.value
    ensures r.Ok? ==> r.value.timeoutMs == timeoutMs && r.value.maxRetries == maxRetries
    ensures r.Ok? ==> (r.value.rateLimit.Some? <==> maxConcurrentRequests.Some?)
    ensures r.Ok? && maxConcurrentRequests.Some? ==>
      r.value.rateLimit.value.permits == maxConcurrentRequests.value
    // requests get through unless the limit is zero concurrent requests
    ensures r.Ok? ==>
      (GateOpen(r.value) <==> maxConcurrentRequests.None? || maxConcurrentRequests.value > 0)
  {
    match buildError
    case Some(e) => Err(e)
    case None =>
      var rateLimit := match maxConcurrentRequests
        case Some(n) => Some(Semaphore(n))
        case None => None;
      Ok(FastScraper(timeoutMs, maxRetries, rateLimit))
  }

  /** The defaults of `new`'s Python signature. */
  const DefaultTimeoutMs: u64 := 5000
  const DefaultMaxRetries: u32 := 3

  /** `FastScraper()` with every argument left at its default: a 5000 ms timeout, three
      requests at most with sleeps of 1000 ms and 2000 ms between them, and no
      rate limit, so requests always get through. */
  function NewDefault(buildError: Option<string>): (r: Result<FastScraper>)
    ensures r.Err? <==> buildError.Some?
    ensures r.Ok? ==> r.value.timeoutMs == 5000 && r.value.maxRetries == 3
    ensures r.Ok? ==> r.value.rateLimit == None && GateOpen(r.value)
    ensures r.Ok? ==> LinearBackoff(r.value.maxRetries as nat - 1) == [1000, 2000]
  {
    New(DefaultTimeoutMs, DefaultMaxRetries, None, buildError)
  }

  /** Whether acquiring a permit before a request ever completes. The permit is dropped
      as soon as it is acquired, so no request holds one for long and the only way
      to wait forever is a semaphore created with no permits at all. */
  predicate GateOpen(scraper: FastScraper) {
    scraper.rateLimit.None? || scraper.rateLimit.value.permits > 0
  }

  // ---------------------------------------------------------------------------
  // fetch: one attempt

  /** An attempt of `fetch` succeeds when the status is 2xx and the body can be read. */
  predicate Succeeds(o: Outcome) {
    o.Response? && IsSuccess(o.status) && o.body.Text?
  }

  /** How `fetch` judges one attempt: the body on success; otherwise the transport's
      message, the body reader's message, or "HTTP error: <status>" for any status
      outside 2xx, whatever its class. */
  function Classify(o: Outcome): (r: Result<string>)
    ensures r.Ok? <==> Succeeds(o)
    ensures r.Ok? ==> r.value == o.body.text
    ensures o.Response? && !IsSuccess(o.status) ==> r == Err(HttpErrorMessage(o.status, o.reason))
  {
    match o
    case TransportFailed(m) => Err(m)
    case Response(status, reason, body) =>
      if IsSuccess(status) then
        match body
        case Text(t) => Ok(t)
        case ReadFailed(m) => Err(m)
      else Err(HttpErrorMessage(status, reason))
  }

  /** The body of `fetch`'s loop as written: it tests for a server error and for
      attempts left over, and builds the same error on both branches. Inside the loop
      `retries < max_retries`, so `max_retries - 1` is computed in `u32` without
      underflow; the result never depends on the retry count. */
  function FetchAttempt(o: Outcome, retries: u32, maxRetries: u32): (r: Result<string>)
    requires retries < maxRetries
    ensures r == Classify(o)
  {
    match o
    case TransportFailed(m) => Err(m)
    case Response(status, reason, body) =>
      if IsSuccess(status) then
        match body
        case Text(t) => Ok(t)
        case ReadFailed(m) => Err(m)
      else if IsServerError(status) && retries < maxRetries - 1 then
        Err(HttpErrorMessage(status, reason))
      else
        Err(HttpErrorMessage(status, reason))
  }

  // ---------------------------------------------------------------------------
  // fetch: backoff

  /** The delays, in milliseconds, slept after the first `n` failed attempts when
      more attempts follow: 1000, 2000, ..., 1000 * n. */
  function LinearBackoff(n: nat): (delays: seq<nat>)
    ensures |delays| == n
    ensures forall i :: 0 <= i < n ==> delays[i] == 1000 * (i + 1)
  {
    if n == 0 then [] else LinearBackoff(n - 1) + [1000 * n]
  }

  function Sum(s: seq<nat>): nat {
    if s == [] then 0 else Sum(s[..|s| - 1]) + s[|s| - 1]
  }

  /** The delays after `n` failures add up to 1000 * (1 + ... + n) ms, so `r` attempts
      that all fail sleep 1000 * r * (r - 1) / 2 ms in total. */
  lemma {:induction false} TotalBackoff(n: nat)
    ensures Sum(LinearBackoff(n)) == 500 * n * (n + 1)
  {
    if n > 0 {
      var d := LinearBackoff(n);
      assert d[..n - 1] == LinearBackoff(n - 1);
      TotalBackoff(n - 1);
    }
  }

  // ---------------------------------------------------------------------------
  // fetch: the retry loop

  /** `FastScraper::fetch`. `attempt(k)` is what the k-th request (counting from 0)
      yields; `sent` is how many requests were made and `sleeps` the delays slept
      between them, in order. */
  method Fetch(scraper: FastScraper, attempt: nat -> Outcome)
    returns (reply: Reply<string>, sent: nat, sleeps: seq<nat>)
    // at most max_retries requests, each made after the previous one failed
    ensures sent <= scraper.maxRetries as nat
    ensures forall k :: 0 <= k < sent - 1 ==> !Succeeds(attempt(k))
    // the first successful attempt ends the call with its body
    ensures reply.Returned? <==> 0 < sent && Succeeds(attempt(sent - 1))
    ensures reply.Returned? ==> reply.value == attempt(sent - 1).body.text
    // when every allowed attempt fails, the last attempt's error is raised
    ensures reply.Raised? <==>
      0 < scraper.maxRetries as nat == sent && !Succeeds(attempt(sent - 1))
    ensures reply.Raised? ==> reply.message == Classify(attempt(sent - 1)).error
    // linear backoff after every failure but the last
    ensures sleeps == LinearBackoff(if sent == 0 then 0 else sent - 1)
    // line 120 is reached exactly when max_retries is 0
    ensures reply.Panicked? <==> scraper.maxRetries == 0
    // a semaphore without permits makes the first acquire wait forever
    ensures reply.Blocked? <==> 0 < scraper.maxRetries && !GateOpen(scraper)
    ensures reply.Panicked? || reply.Blocked? ==> sent == 0
  {
    var retries: u32 := 0;
    sent, sleeps := 0, [];
    while retries < scraper.maxRetries
      invariant retries <= scraper.maxRetries
      invariant 0 < scraper.maxRetries ==> retries < scraper.maxRetries
      invariant 0 < sent ==> GateOpen(scraper)
      invariant sent == retries as nat
      invariant forall k :: 0 <= k < sent ==> !Succeeds(attempt(k))
      invariant sleeps == LinearBackoff(sent)
      decreases scraper.maxRetries as int - retries as int
    {
      if !GateOpen(scraper) {
        reply := Blocked;
        return;
      }
      var result := FetchAttempt(attempt(sent), retries, scraper.maxRetries);
      sent := sent + 1;
      match result {
        case Ok(content) =>
          reply := Returned(content);
          return;
        case Err(e) =>
          retries := retries + 1;
          if retries == scraper.maxRetries {
            reply := Raised(e);
            return;
          }
          var delayMs: u64 := 1000 * retries as u64;
          sleeps := sleeps + [delayMs as nat];
      }
    }
    reply := Panicked;
  }

  /** A target that fails every time, whatever the cause (a 5xx, a 404, a transport
      error, an unreadable body), is tried exactly `max_retries` times; the caller
      gets that failure's message after sleeping 1000 * r * (r - 1) / 2 ms in all. */
  method AlwaysFailingTarget(scraper: FastScraper, failure: Outcome)
    returns (reply: Reply<string>, sent: nat, sleeps: seq<nat>)
    requires 0 < scraper.maxRetries && GateOpen(scraper)
    requires !Succeeds(failure)
    ensures sent == scraper.maxRetries as nat
    ensures reply == Raised(Classify(failure).error)
    ensures Sum(sleeps) == 500 * (sent - 1) * sent
  {
    reply, sent, sleeps := Fetch(scraper, _ => failure);
    assert sleeps == LinearBackoff(sent - 1);
    TotalBackoff(sent - 1);
  }

  /** A target that answers 2xx with a readable body on the first request costs one
      request and no sleep. */
  method FirstAttemptSucceeds(scraper: FastScraper, attempt: nat -> Outcome)
    returns (reply: Reply<string>, sent: nat, sleeps: seq<nat>)
    requires 0 < scraper.maxRetries && GateOpen(scraper)
    requires Succeeds(attempt(0))
    ensures sent == 1 && sleeps == []
    ensures reply == Returned(attempt(0).body.text)
  {
    reply, sent, sleeps := Fetch(scraper, attempt);
  }

  // ---------------------------------------------------------------------------
  // fetch_many

  /** How `fetch_many` judges the single request it makes for a URL: only status
      200 exactly is a success; any other status, 2xx included, is an error. It is
      stricter than one attempt of `fetch` and otherwise agrees with it. */
  function ManyAttempt(o: Outcome): (r: Result<string>)
    ensures r.Ok? <==> o.Response? && o.status == OK && o.body.Text?
    ensures r.Ok? ==> r.value == o.body.text
    ensures r == if o.Response? && IsSuccess(o.status) && o.status != OK
                 then Err(HttpErrorMessage(o.status, o.reason))
                 else Classify(o)
  {
    match o
    case TransportFailed(m) => Err(m)
    case Response(status, reason, body) =>
      if status == OK then
        match body
        case Text(t) => Ok(t)
        case ReadFailed(m) => Err(m)
      else Err(HttpErrorMessage(status, reason))
  }

  /** `collect::<Result<Vec<_>, _>>()`: the values in order when every element is
      `Ok`, otherwise the first `Err`. */
  function Collect<T>(results: seq<Result<T>>): (r: Result<seq<T>>)
    ensures r.Ok? <==> forall i :: 0 <= i < |results| ==> results[i].Ok?
    ensures r.Ok? ==> |r.value| == |results|
    ensures r.Ok? ==> forall i :: 0 <= i < |results| ==> r.value[i] == results[i].value
  {
    if results == [] then Ok([])
    else match results[0]
      case Err(e) => Err(e)
      case Ok(v) =>
        match Collect(results[1..])
        case Err(e) => Err(e)
        case Ok(vs) => Ok([v] + vs)
  }

  /** The error `Collect` reports is that of the earliest `Err` in input order. */
  lemma {:induction false} CollectFirstError<T>(results: seq<Result<T>>, i: nat)
    requires i < |results| && results[i].Err?
    requires forall j :: 0 <= j < i ==> results[j].Ok?
    ensures Collect(results) == Err(results[i].error)
  {
    if i > 0 {
      CollectFirstError(results[1..], i - 1);
    }
  }

  /** Collecting a concatenation: the first half's error if it has one, otherwise the
      second half's, otherwise both halves' values in order. */
  lemma {:induction false} CollectAppend<T>(a: seq<Result<T>>, b: seq<Result<T>>)
    ensures Collect(a + b) ==
      match Collect(a)
      case Err(e) => Err(e)
      case Ok(va) =>
        match Collect(b)
        case Err(e) => Err(e)
        case Ok(vb) => Ok(va + vb)
  {
    if a != [] {
      assert (a + b)[0] == a[0];
      assert (a + b)[1..] == a[1..] + b;
      CollectAppend(a[1..], b);
      if a[0].Ok? && Collect(a[1..]).Ok? && Collect(b).Ok? {
        var v, va, vb := a[0].value, Collect(a[1..]).value, Collect(b).value;
        assert [v] + (va + vb) == ([v] + va) + vb;
      }
    } else {
      assert a + b == b;
      if Collect(b).Ok? {
        assert [] + Collect(b).value == Collect(b).value;
      }
    }
  }

  /** One result per URL, in input order (`join_all` keeps the order of its futures). */
  function ManyResults(outcomes: seq<Outcome>): (rs: seq<Result<string>>)
    ensures |rs| == |outcomes|
    ensures forall i :: 0 <= i < |outcomes| ==> rs[i] == ManyAttempt(outcomes[i])
  {
    seq(|outcomes|, i requires 0 <= i < |outcomes| => ManyAttempt(outcomes[i]))
  }

  /** `FastScraper::fetch_many`. `outcomes[i]` is what the one request for the i-th
      URL yields. */
  function FetchMany(scraper: FastScraper, outcomes: seq<Outcome>): (r: Reply<seq<string>>)
    ensures !r.Panicked?
    ensures outcomes == [] ==> r == Returned([])
    ensures r.Blocked? <==> outcomes != [] && !GateOpen(scraper)
    // every URL answered 200 with a readable body: the bodies, one per URL, in order
    ensures r.Returned? <==>
      (outcomes == [] || GateOpen(scraper)) &&
      forall i :: 0 <= i < |outcomes| ==> ManyAttempt(outcomes[i]).Ok?
    ensures r.Returned? ==> |r.value| == |outcomes|
    ensures r.Returned? ==> forall i :: 0 <= i < |outcomes| ==> r.value[i] == outcomes[i].body.text
  {
    if outcomes != [] && !GateOpen(scraper) then Blocked
    else
      match Collect(ManyResults(outcomes))
      case Ok(bodies) => Returned(bodies)
      case Err(e) => Raised(e)
  }

  /** A failing URL fails the whole batch, with the error of the earliest failing URL
      in input order; no partial list is returned. */
  lemma FetchManyFirstError(scraper: FastScraper, outcomes: seq<Outcome>, i: nat)
    requires GateOpen(scraper)
    requires i < |outcomes| && !ManyAttempt(outcomes[i]).Ok?
    requires forall j :: 0 <= j < i ==> ManyAttempt(outcomes[j]).Ok?
    ensures FetchMany(scraper, outcomes) == Raised(ManyAttempt(outcomes[i]).error)
  {
    CollectFirstError(ManyResults(outcomes), i);
  }
}
