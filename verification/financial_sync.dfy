/**
 * `process_all_companies`: for each of the first `total_companies` company codes, up to
 * `max_retries` attempts to fetch the quote snapshot and store it, with a backoff after an
 * exception and a rate-limit pause between companies. The fetcher, the store and the clock are
 * oracles indexed by how many times each has been called; sleeps are recorded as events.
 */
module FinancialSync {
  import opened Wrappers
  import opened Json
  import opened Symbols
  import opened MongoHandler
  import Snapshot

  /** A company code as the directory lists it; codes compare as whole records, `id` included. */
  datatype Company = Company(id: int, name: string, symbol: string)

  /** What `fetch_financial_data` does on one call: return a dictionary or `None`, or raise. */
  datatype FetchReply = Fetched(data: Option<map<string, Json>>) | FetchRaised

  /** The observable steps of a run, sleeps included, and the `close()` of the `finally` block. */
  datatype Event = Fetch(tvSymbol: string) | Update(symbol: string) | Backoff(seconds: real) | RateLimit(seconds: real) | Close

  /**
   * The k-th fetch reply, the k-th store reply and the k-th clock reading; `MONGODB_URI` as
   * configured, and whether `connect` succeeds (it re-raises a `PyMongoError`).
   */
  datatype Services = Services(fetch: nat -> FetchReply, store: nat -> StoreReply, clock: nat -> int,
                               uri: Option<string>, connects: bool)

  datatype Settings = Settings(rateLimit: real, maxCompanies: Option<int>, retryDelay: real, maxRetries: int)

  /**
   * The run so far: its events, the oracle calls made, the `processed` counter, and whether an
   * exception has escaped the loops (a `time.sleep` given a negative length raises `ValueError`).
   */
  datatype Progress = Progress(events: seq<Event>, fetches: nat, updates: nat, processed: nat, aborted: bool)

  const START := Progress([], 0, 0, 0, false)

  /** `min(len(codes), max_companies) if max_companies else len(codes)`. */
  function TotalCompanies(count: nat, maxCompanies: Option<int>): int {
    if maxCompanies.Some? && maxCompanies.value != 0 then Min(count, maxCompanies.value) else count
  }

  /** `codes[:total]`, with Python's reading of a negative bound as counted from the end. */
  function SliceTo<T>(codes: seq<T>, total: int): (r: seq<T>)
    ensures |r| <= |codes| && r == codes[..|r|]
    ensures total >= 0 ==> |r| == Min(total, |codes|)
    ensures total < 0 ==> |r| == Max(0, |codes| + total)
  {
    if total >= 0 then codes[..Min(total, |codes|)] else codes[..Max(0, |codes| + total)]
  }

  /** The companies the loop visits. */
  function Visited(codes: seq<Company>, st: Settings): seq<Company> {
    SliceTo(codes, TotalCompanies(|codes|, st.maxCompanies))
  }

  /** The visited companies are the first `min(len, max_companies)` when `max_companies` is positive, all of them when it is `None` or 0. */
  lemma VisitedCompanies(codes: seq<Company>, st: Settings)
    ensures Visited(codes, st) == codes[..|Visited(codes, st)|]
    ensures st.maxCompanies.Some? && st.maxCompanies.value > 0 ==> |Visited(codes, st)| == Min(|codes|, st.maxCompanies.value)
    ensures st.maxCompanies.None? || st.maxCompanies.value == 0 ==> Visited(codes, st) == codes
  {
  }

  /** `if tv_data:` on what the fetcher returned. */
  predicate IsTruthyData(data: Option<map<string, Json>>) {
    data.Some? && data.value != map[]
  }

  /** The linear backoff after a failed attempt: `retry_delay * (attempt + 1)` seconds. */
  function BackoffDelay(st: Settings, attempt: nat): real {
    st.retryDelay * ((attempt + 1) as real)
  }

  /**
   * The `except` branch: back off unless this was the final attempt. The delay is negative exactly
   * when `retry_delay` is, and then the sleep raises inside the handler, so the exception escapes.
   */
  function Failed(p: Progress, attempt: nat, st: Settings): Progress {
    if attempt == st.maxRetries - 1 then p
    else if st.retryDelay < 0.0 then p.(aborted := true)
    else p.(events := p.events + [Backoff(BackoffDelay(st, attempt))])
  }

  /** An event one company's attempts may add: a fetch of `CSELK:` + its symbol, an update of its bare symbol, or a backoff. */
  predicate NamesCompany(c: Company, e: Event) {
    match e
    case Fetch(tv) => tv == TradingViewSymbol(c.symbol)
    case Update(s) => s == c.symbol
    case Backoff(_) => true
    case _ => false
  }

  /** `after` is `before` followed only by events of company `c`. */
  predicate Extends(before: seq<Event>, after: seq<Event>, c: Company) {
    && |before| <= |after| && after[..|before|] == before
    && forall k :: |before| <= k < |after| ==> NamesCompany(c, after[k])
  }

  lemma ExtendsTransitive(a: seq<Event>, b: seq<Event>, d: seq<Event>, c: Company)
    requires Extends(a, b, c) && Extends(b, d, c)
    ensures Extends(a, d, c)
  {
    assert d[..|a|] == d[..|b|][..|a|];
  }

  /** The outcome of one pass of the retry loop: the progress after it, and whether it ended in the `break`. */
  datatype Step = Step(after: Progress, succeeded: bool)

  /** One attempt: fetch; store truthy data; back off after an exception; succeed when a record was modified. */
  function Attempt(c: Company, attempt: nat, p: Progress, st: Settings, sv: Services): (s: Step)
    ensures s.after.fetches == p.fetches + 1
    ensures s.after.processed == if s.succeeded then p.processed + 1 else p.processed
    ensures Extends(p.events, s.after.events, c)
    ensures s.succeeded ==> |s.after.events| > |p.events| && s.after.events[|s.after.events| - 1] == Update(c.symbol)
  {
    var p1 := p.(events := p.events + [Fetch(TradingViewSymbol(c.symbol))], fetches := p.fetches + 1);
    match sv.fetch(p.fetches)
    case FetchRaised => Step(Failed(p1, attempt, st), false)
    case Fetched(data) =>
      if !IsTruthyData(data) then Step(p1, false)
      else
        var r := UpdateCompanyFinancials(c.symbol, data, sv.clock(p1.updates), sv.store(p1.updates));
        var p2 := p1.(events := p1.events + [Update(c.symbol)], updates := p1.updates + 1);
        match r.outcome
        case Returned(ok) => if ok then Step(p2.(processed := p2.processed + 1), true) else Step(p2, false)
        case Raised => Step(Failed(p2, attempt, st), false)
  }

  /**
   * What one attempt does, for any replies: it succeeds exactly when the fetch is truthy and the
   * update returns `True`; it updates exactly when the fetch is truthy; it backs off exactly when the
   * fetch or the update raised and this is not the final attempt, and that backoff raises when
   * `retry_delay` is negative. A falsy fetch or an update returning `False` moves on without a sleep.
   */
  lemma AttemptBehaviour(c: Company, attempt: nat, p: Progress, st: Settings, sv: Services)
    ensures var s := Attempt(c, attempt, p, st, sv);
      var f := sv.fetch(p.fetches);
      var truthy := f.Fetched? && IsTruthyData(f.data);
      var outcome := if truthy then UpdateCompanyFinancials(c.symbol, f.data, sv.clock(p.updates), sv.store(p.updates)).outcome
        else Returned(false);
      var backsOff := (f.FetchRaised? || outcome.Raised?) && attempt != st.maxRetries - 1;
      && (s.succeeded <==> truthy && outcome == Returned(true))
      && s.after.updates == (if truthy then p.updates + 1 else p.updates)
      && s.after.aborted == (p.aborted || (backsOff && st.retryDelay < 0.0))
      && s.after.events == p.events + [Fetch(TradingViewSymbol(c.symbol))]
           + (if truthy then [Update(c.symbol)] else [])
           + (if backsOff && st.retryDelay >= 0.0 then [Backoff(BackoffDelay(st, attempt))] else [])
  {
  }

  /** The attempts for one company from `attempt` on, ending at the first success, at an escaping exception, or after `max_retries`. */
  function Attempts(c: Company, attempt: nat, p: Progress, st: Settings, sv: Services): Progress
    decreases if attempt < st.maxRetries then st.maxRetries - attempt else 0
  {
    if attempt >= st.maxRetries then p
    else
      var s := Attempt(c, attempt, p, st, sv);
      if s.succeeded || s.after.aborted then s.after else Attempts(c, attempt + 1, s.after, st, sv)
  }

  /**
   * One company: its attempts, then the rate-limit pause unless it equals the last code of the full
   * list or an exception already escaped; a negative rate limit makes that sleep raise.
   */
  function CompanyStep(c: Company, last: Company, p: Progress, st: Settings, sv: Services): Progress {
    var q := Attempts(c, 0, p, st, sv);
    if q.aborted || c == last then q
    else if st.rateLimit < 0.0 then q.(aborted := true)
    else q.(events := q.events + [RateLimit(st.rateLimit)])
  }

  /** The visited companies in order, up to the first escaping exception. */
  function RunCompanies(visited: seq<Company>, last: Company, p: Progress, st: Settings, sv: Services): Progress
    decreases |visited|
  {
    if visited == [] || p.aborted then p
    else RunCompanies(visited[1..], last, CompanyStep(visited[0], last, p, st, sv), st, sv)
  }

  /**
   * `MongoDBHandler()`, built before the `try`, returns: `MONGODB_URI` is set and non-empty and
   * `connect` succeeds.
   */
  predicate HandlerOpens(sv: Services) {
    ConnectionUri(sv.uri).Some? && sv.connects
  }

  /**
   * The whole run. When the handler cannot be built, its exception propagates at once: no event, not
   * even `close()`. Otherwise: nothing but `close()` when there are no codes, else the visited
   * companies in order, then `close()`; when `aborted`, the exception propagates after that `close()`.
   */
  function Run(codes: Option<seq<Company>>, st: Settings, sv: Services): Progress {
    if !HandlerOpens(sv) then Progress([], 0, 0, 0, true)
    else if codes.None? || codes.value == [] then Progress([Close], 0, 0, 0, false)
    else
      var q := RunCompanies(Visited(codes.value, st), codes.value[|codes.value| - 1], START, st, sv);
      q.(events := q.events + [Close])
  }

  /** The body of the retry loop: the `try` block and its `except` backoff, for one attempt. */
  method TryOnce(company: Company, attempt: nat, p: Progress, st: Settings, sv: Services)
    returns (after: Progress, succeeded: bool)
    ensures Step(after, succeeded) == Attempt(company, attempt, p, st, sv)
  {
    var symbol := company.symbol;
    var events := p.events + [Fetch(TradingViewSymbol(symbol))];
    var fetches, updates, processed, aborted := p.fetches + 1, p.updates, p.processed, p.aborted;
    succeeded := false;
    var raised := false;
    match sv.fetch(p.fetches) {
      case FetchRaised =>
        raised := true;
      case Fetched(tvData) =>
        if IsTruthyData(tvData) {
          events := events + [Update(symbol)];
          var result := UpdateCompanyFinancials(symbol, tvData, sv.clock(updates), sv.store(updates));
          updates := updates + 1;
          if result.outcome == Returned(true) {
            processed := processed + 1;
            succeeded := true;
          } else {
            raised := result.outcome.Raised?;
          }
        }
    }
    if raised && attempt != st.maxRetries - 1 {
      if st.retryDelay < 0.0 {
        aborted := true;
      } else {
        events := events + [Backoff(BackoffDelay(st, attempt))];
      }
    }
    after := Progress(events, fetches, updates, processed, aborted);
  }

  /** The `for attempt in range(max_retries)` loop for one company, left by `break` on success or by an escaping exception. */
  method RetryCompany(company: Company, p: Progress, st: Settings, sv: Services) returns (after: Progress)
    ensures after == Attempts(company, 0, p, st, sv)
  {
    after := p;
    var attempt: nat := 0;
    while attempt < st.maxRetries
      invariant Attempts(company, attempt, after, st, sv) == Attempts(company, 0, p, st, sv)
      decreases st.maxRetries - attempt
    {
      var succeeded;
      after, succeeded := TryOnce(company, attempt, after, st, sv);
      if succeeded || after.aborted {
        break;
      }
      attempt := attempt + 1;
    }
  }

  /**
   * `process_all_companies`: the handler built before the `try`, then the company loop, with the
   * `processed` counter and the rate-limit pause; `raised` says that an exception propagates, either
   * from building the handler or after the final `close()`.
   */
  method ProcessAllCompanies(codes: Option<seq<Company>>, st: Settings, sv: Services)
    returns (events: seq<Event>, processed: nat, raised: bool)
    ensures var r := Run(codes, st, sv);
      events == r.events && processed == r.processed && raised == r.aborted
  {
    var handler := OpenHandler(sv.uri);
    if handler.None? || !sv.connects {
      events, processed, raised := [], 0, true;
      return;
    }
    if codes.None? || codes.value == [] {
      events, processed, raised := [Close], 0, false;
      return;
    }
    var companyCodes := codes.value;
    var totalCompanies := if st.maxCompanies.Some? && st.maxCompanies.value != 0
      then Min(|companyCodes|, st.maxCompanies.value) else |companyCodes|;
    var visited := SliceTo(companyCodes, totalCompanies);
    var last := companyCodes[|companyCodes| - 1];
    events, processed, raised := [], 0, false;
    var fetches, updates := 0, 0;
    var i := 0;
    while i < |visited| && !raised
      invariant 0 <= i <= |visited|
      invariant RunCompanies(visited[i..], last, Progress(events, fetches, updates, processed, raised), st, sv)
        == RunCompanies(visited, last, START, st, sv)
    {
      var company := visited[i];
      var after := RetryCompany(company, Progress(events, fetches, updates, processed, raised), st, sv);
      events, fetches, updates, processed, raised := after.events, after.fetches, after.updates, after.processed, after.aborted;
      if !raised && company != last {
        if st.rateLimit < 0.0 {
          raised := true;
        } else {
          events := events + [RateLimit(st.rateLimit)];
        }
      }
      assert visited[i..][1..] == visited[i + 1..];
      i := i + 1;
    }
    events := events + [Close];
  }

  /** Per company, at most `max_retries` fetches, and at least one whenever `max_retries` is positive. */
  lemma {:induction false} FetchesBounded(c: Company, attempt: nat, p: Progress, st: Settings, sv: Services)
    ensures var q := Attempts(c, attempt, p, st, sv);
      && q.fetches - p.fetches <= Max(0, st.maxRetries - attempt)
      && (attempt < st.maxRetries ==> q.fetches - p.fetches >= 1)
    decreases if attempt < st.maxRetries then st.maxRetries - attempt else 0
  {
    if attempt < st.maxRetries {
      FetchesBounded(c, attempt + 1, Attempt(c, attempt, p, st, sv).after, st, sv);
    }
  }

  /** With `max_retries=1`, as the main entry point sets it, each company is fetched exactly once. */
  lemma SingleAttempt(c: Company, p: Progress, st: Settings, sv: Services)
    requires st.maxRetries == 1
    ensures Attempts(c, 0, p, st, sv).fetches == p.fetches + 1
  {
    FetchesBounded(c, 0, p, st, sv);
  }

  /** A company's attempts raise `processed` by one exactly when one ends in success, and then the last event is its update. */
  lemma {:induction false} AttemptsCountSuccessOnce(c: Company, attempt: nat, p: Progress, st: Settings, sv: Services)
    ensures var q := Attempts(c, attempt, p, st, sv);
      && (q.processed == p.processed || q.processed == p.processed + 1)
      && (q.processed == p.processed + 1 ==> |q.events| > 0 && q.events[|q.events| - 1] == Update(c.symbol))
    decreases if attempt < st.maxRetries then st.maxRetries - attempt else 0
  {
    if attempt < st.maxRetries {
      var s := Attempt(c, attempt, p, st, sv);
      if !s.succeeded && !s.after.aborted {
        AttemptsCountSuccessOnce(c, attempt + 1, s.after, st, sv);
      }
    }
  }

  /** `processed` never exceeds the number of companies visited. */
  lemma {:induction false} ProcessedBounded(visited: seq<Company>, last: Company, p: Progress, st: Settings, sv: Services)
    ensures RunCompanies(visited, last, p, st, sv).processed <= p.processed + |visited|
    decreases |visited|
  {
    if visited != [] {
      AttemptsCountSuccessOnce(visited[0], 0, p, st, sv);
      ProcessedBounded(visited[1..], last, CompanyStep(visited[0], last, p, st, sv), st, sv);
    }
  }

  /**
   * Once the handler is built the run always ends with `close()`; a handler that cannot be built
   * raises before any fetch and without `close()`. A run counts at most one success per visited
   * company.
   */
  lemma RunCloses(codes: Option<seq<Company>>, st: Settings, sv: Services)
    ensures var r := Run(codes, st, sv);
      && (HandlerOpens(sv) <==> |r.events| > 0 && r.events[|r.events| - 1] == Close)
      && (!HandlerOpens(sv) ==> r.events == [] && r.fetches == 0 && r.aborted)
      && (HandlerOpens(sv) && (codes.None? || codes.value == []) ==> r.events == [Close] && r.processed == 0 && !r.aborted)
      && (codes.Some? && codes.value != [] ==> r.processed <= |Visited(codes.value, st)|)
  {
    if HandlerOpens(sv) && codes.Some? && codes.value != [] {
      ProcessedBounded(Visited(codes.value, st), codes.value[|codes.value| - 1], START, st, sv);
    }
  }

  /** A company's attempts only append events that name it: no other symbol, no rate-limit pause, no `close()`. */
  lemma {:induction false} AttemptsNameTheCompany(c: Company, attempt: nat, p: Progress, st: Settings, sv: Services)
    ensures Extends(p.events, Attempts(c, attempt, p, st, sv).events, c)
    decreases if attempt < st.maxRetries then st.maxRetries - attempt else 0
  {
    if attempt < st.maxRetries {
      var s := Attempt(c, attempt, p, st, sv);
      if !s.succeeded && !s.after.aborted {
        AttemptsNameTheCompany(c, attempt + 1, s.after, st, sv);
        ExtendsTransitive(p.events, s.after.events, Attempts(c, attempt + 1, s.after, st, sv).events, c);
      }
    }
  }

  /** One attempt whose fetch raises: the fetch, then the backoff unless it is the final attempt. */
  lemma RaisedAttempt(c: Company, attempt: nat, p: Progress, st: Settings, sv: Services) returns (after: Progress)
    requires sv.fetch(p.fetches) == FetchRaised && st.retryDelay >= 0.0
    ensures Attempt(c, attempt, p, st, sv) == Step(after, false)
    ensures after.fetches == p.fetches + 1 && after.aborted == p.aborted
    ensures after.events == p.events + [Fetch(TradingViewSymbol(c.symbol))]
      + (if attempt != st.maxRetries - 1 then [Backoff(BackoffDelay(st, attempt))] else [])
  {
    var p1 := p.(events := p.events + [Fetch(TradingViewSymbol(c.symbol))], fetches := p.fetches + 1);
    after := Failed(p1, attempt, st);
  }

  /**
   * When every fetch raises and `retry_delay` is not negative, a company gets `max_retries` fetches,
   * each but the last followed by a backoff of `retry_delay * (attempt + 1)` seconds.
   */
  lemma {:induction false} RaisingFetchesBackOff(c: Company, attempt: nat, p: Progress, st: Settings, sv: Services)
    requires forall k :: sv.fetch(k) == FetchRaised
    requires attempt < st.maxRetries && st.retryDelay >= 0.0 && !p.aborted
    ensures var q, n := Attempts(c, attempt, p, st, sv), st.maxRetries - attempt;
      && |q.events| == |p.events| + 2 * n - 1
      && q.events[..|p.events|] == p.events
      && (forall a :: 0 <= a < n ==> q.events[|p.events| + 2 * a] == Fetch(TradingViewSymbol(c.symbol)))
      && (forall a :: 0 <= a < n - 1 ==>
            q.events[|p.events| + 2 * a + 1] == Backoff(BackoffDelay(st, attempt + a)))
      && q.processed == p.processed
    decreases st.maxRetries - attempt
  {
    var p3 := RaisedAttempt(c, attempt, p, st, sv);
    if attempt < st.maxRetries - 1 {
      RaisingFetchesBackOff(c, attempt + 1, p3, st, sv);
      var q := Attempts(c, attempt, p, st, sv);
      assert q == Attempts(c, attempt + 1, p3, st, sv);
      BackoffsShift(p.events, p3.events, q.events, Fetch(TradingViewSymbol(c.symbol)), st, attempt, st.maxRetries - attempt);
    }
  }

  /** Putting one fetch and its backoff in front of a run of alternating fetches and backoffs. */
  lemma BackoffsShift(before: seq<Event>, mid: seq<Event>, after: seq<Event>, fetch: Event, st: Settings, attempt: nat, n: nat)
    requires n >= 2 && mid == before + [fetch, Backoff(BackoffDelay(st, attempt))]
    requires |after| == |mid| + 2 * (n - 1) - 1 && after[..|mid|] == mid
    requires forall a :: 0 <= a < n - 1 ==> after[|mid| + 2 * a] == fetch
    requires forall a :: 0 <= a < n - 2 ==> after[|mid| + 2 * a + 1] == Backoff(BackoffDelay(st, attempt + 1 + a))
    ensures |after| == |before| + 2 * n - 1 && after[..|before|] == before
    ensures forall a :: 0 <= a < n ==> after[|before| + 2 * a] == fetch
    ensures forall a :: 0 <= a < n - 1 ==> after[|before| + 2 * a + 1] == Backoff(BackoffDelay(st, attempt + a))
  {
    assert after[|before|] == mid[|before|] && after[|before| + 1] == mid[|before| + 1];
    forall a | 1 <= a < n ensures after[|before| + 2 * a] == fetch {
      assert |before| + 2 * a == |mid| + 2 * (a - 1);
    }
    forall a | 1 <= a < n - 1 ensures after[|before| + 2 * a + 1] == Backoff(BackoffDelay(st, attempt + a)) {
      assert |before| + 2 * a + 1 == |mid| + 2 * (a - 1) + 1;
      assert attempt + 1 + (a - 1) == attempt + a;
    }
    assert after[..|before|] == after[..|mid|][..|before|];
  }

  /** A falsy fetch result is retried at once: when every fetch returns `None` or `{}`, only fetches happen, one per attempt. */
  lemma {:induction false} FalsyFetchesRetryWithoutSleep(c: Company, attempt: nat, p: Progress, st: Settings, sv: Services)
    requires forall k :: sv.fetch(k).Fetched? && !IsTruthyData(sv.fetch(k).data)
    requires !p.aborted
    ensures var q := Attempts(c, attempt, p, st, sv);
      q.events == p.events + seq(Max(0, st.maxRetries - attempt), _ => Fetch(TradingViewSymbol(c.symbol)))
    decreases if attempt < st.maxRetries then st.maxRetries - attempt else 0
  {
    var tv := Fetch(TradingViewSymbol(c.symbol));
    if attempt < st.maxRetries {
      var p1 := p.(events := p.events + [tv], fetches := p.fetches + 1);
      assert Attempt(c, attempt, p, st, sv) == Step(p1, false);
      FalsyFetchesRetryWithoutSleep(c, attempt + 1, p1, st, sv);
      var n := st.maxRetries - attempt;
      assert seq(n, _ => tv) == [tv] + seq(n - 1, _ => tv);
    } else {
      assert seq(Max(0, st.maxRetries - attempt), _ => tv) == [];
    }
  }

  /** The number of rate-limit pauses among `events`. */
  function RateLimitCount(events: seq<Event>): nat
    decreases |events|
  {
    if events == [] then 0 else (if events[0].RateLimit? then 1 else 0) + RateLimitCount(events[1..])
  }

  /** The visited companies that differ from the last code of the full list. */
  function NotLastCount(visited: seq<Company>, last: Company): nat
    decreases |visited|
  {
    if visited == [] then 0 else (if visited[0] != last then 1 else 0) + NotLastCount(visited[1..], last)
  }

  lemma {:induction false} RateLimitCountAppend(a: seq<Event>, b: seq<Event>)
    ensures RateLimitCount(a + b) == RateLimitCount(a) + RateLimitCount(b)
    decreases |a|
  {
    if a == [] {
      assert a + b == b;
    } else {
      assert (a + b)[1..] == a[1..] + b;
      RateLimitCountAppend(a[1..], b);
    }
  }

  lemma {:induction false} NoRateLimits(events: seq<Event>)
    requires forall k :: 0 <= k < |events| ==> !events[k].RateLimit?
    ensures RateLimitCount(events) == 0
    decreases |events|
  {
    if events != [] {
      NoRateLimits(events[1..]);
    }
  }

  /** Counting the pauses added from `a` to `d` through `b`. */
  lemma RateLimitCountThrough(a: seq<Event>, b: seq<Event>, d: seq<Event>)
    requires |a| <= |b| <= |d| && b[..|a|] == a && d[..|b|] == b
    ensures d[..|a|] == a
    ensures RateLimitCount(d[|a|..]) == RateLimitCount(b[|a|..]) + RateLimitCount(d[|b|..])
  {
    assert d[..|a|] == d[..|b|][..|a|];
    assert d[|a|..] == b[|a|..] + d[|b|..];
    RateLimitCountAppend(b[|a|..], d[|b|..]);
  }

  /** One company adds exactly one pause, unless it equals the last code or an exception escaped. */
  lemma CompanyStepPauses(c: Company, last: Company, p: Progress, st: Settings, sv: Services)
    ensures var s := CompanyStep(c, last, p, st, sv);
      && |p.events| <= |s.events| && s.events[..|p.events|] == p.events
      && RateLimitCount(s.events[|p.events|..]) == (if c != last && !s.aborted then 1 else 0)
  {
    var a := Attempts(c, 0, p, st, sv);
    AttemptsNameTheCompany(c, 0, p, st, sv);
    var added := a.events[|p.events|..];
    forall k | 0 <= k < |added|
      ensures !added[k].RateLimit?
    {
      assert added[k] == a.events[|p.events| + k];
    }
    NoRateLimits(added);
    var s := CompanyStep(c, last, p, st, sv);
    var pause: seq<Event> := if c != last && !s.aborted then [RateLimit(st.rateLimit)] else [];
    assert s.events == a.events + pause;
    assert s.events[|p.events|..] == added + pause;
    RateLimitCountAppend(added, pause);
    if pause != [] {
      assert pause[1..] == [];
    }
    assert s.events[..|p.events|] == a.events[..|p.events|];
  }

  /**
   * In a run where no exception escapes, every visited company is followed by a pause except those
   * equal to the last code of the full list.
   */
  lemma {:induction false} RateLimitsCounted(visited: seq<Company>, last: Company, p: Progress, st: Settings, sv: Services)
    ensures var q := RunCompanies(visited, last, p, st, sv);
      && |p.events| <= |q.events| && q.events[..|p.events|] == p.events
      && (!q.aborted ==> RateLimitCount(q.events[|p.events|..]) == NotLastCount(visited, last))
    decreases |visited|
  {
    var q := RunCompanies(visited, last, p, st, sv);
    if visited == [] || p.aborted {
      assert q.events[|p.events|..] == [];
    } else {
      var s := CompanyStep(visited[0], last, p, st, sv);
      CompanyStepPauses(visited[0], last, p, st, sv);
      RateLimitsCounted(visited[1..], last, s, st, sv);
      assert q == RunCompanies(visited[1..], last, s, st, sv);
      RateLimitCountThrough(p.events, s.events, q.events);
    }
  }

  lemma {:induction false} NotLastCountAll(visited: seq<Company>, last: Company)
    requires last !in visited
    ensures NotLastCount(visited, last) == |visited|
    decreases |visited|
  {
    if visited != [] {
      NotLastCountAll(visited[1..], last);
    }
  }

  /**
   * When the last code is not among the visited ones (a truncated list of distinct codes) and the
   * sleeps are not negative, every visited company is followed by a pause.
   */
  lemma TruncatedRunPausesAfterEach(visited: seq<Company>, last: Company, p: Progress, st: Settings, sv: Services)
    requires last !in visited
    requires st.rateLimit >= 0.0 && st.retryDelay >= 0.0 && !p.aborted
    ensures var q := RunCompanies(visited, last, p, st, sv);
      |p.events| <= |q.events| && RateLimitCount(q.events[|p.events|..]) == |visited|
  {
    RateLimitsCounted(visited, last, p, st, sv);
    SleepsNeverRaise(visited, last, p, st, sv);
    NotLastCountAll(visited, last);
  }

  /** With a non-negative `retry_delay`, a company's attempts never raise out of the retry loop. */
  lemma {:induction false} BackoffsNeverRaise(c: Company, attempt: nat, p: Progress, st: Settings, sv: Services)
    requires st.retryDelay >= 0.0 && !p.aborted
    ensures !Attempts(c, attempt, p, st, sv).aborted
    decreases if attempt < st.maxRetries then st.maxRetries - attempt else 0
  {
    if attempt < st.maxRetries {
      var s := Attempt(c, attempt, p, st, sv);
      AttemptBehaviour(c, attempt, p, st, sv);
      if !s.succeeded {
        BackoffsNeverRaise(c, attempt + 1, s.after, st, sv);
      }
    }
  }

  /** With non-negative `rate_limit` and `retry_delay`, no sleep raises and every visited company is handled. */
  lemma {:induction false} SleepsNeverRaise(visited: seq<Company>, last: Company, p: Progress, st: Settings, sv: Services)
    requires st.rateLimit >= 0.0 && st.retryDelay >= 0.0 && !p.aborted
    ensures !RunCompanies(visited, last, p, st, sv).aborted
    decreases |visited|
  {
    if visited != [] {
      BackoffsNeverRaise(visited[0], 0, p, st, sv);
      SleepsNeverRaise(visited[1..], last, CompanyStep(visited[0], last, p, st, sv), st, sv);
    }
  }

  /**
   * Once the handler is built, a negative `rate_limit` raises at the first pause: the run handles
   * the first visited company (when it is not the last code), closes the store and raises, and no
   * other company is fetched.
   */
  lemma NegativeRateLimitStopsRun(codes: seq<Company>, st: Settings, sv: Services)
    requires HandlerOpens(sv) && st.rateLimit < 0.0
    requires |Visited(codes, st)| >= 1 && Visited(codes, st)[0] != codes[|codes| - 1]
    ensures var r, first := Run(Some(codes), st, sv), Visited(codes, st)[0];
      var a := Attempts(first, 0, START, st, sv);
      && r.aborted && r.events == a.events + [Close]
      && forall k :: 0 <= k < |a.events| ==> NamesCompany(first, a.events[k])
  {
    var v := Visited(codes, st);
    var last := codes[|codes| - 1];
    var s := CompanyStep(v[0], last, START, st, sv);
    assert s.aborted;
    assert RunCompanies(v, last, START, st, sv) == RunCompanies(v[1..], last, s, st, sv) == s;
    AttemptsNameTheCompany(v[0], 0, START, st, sv);
  }

  /**
   * Once the handler is built, a negative `retry_delay` raises at the first backoff: when the very
   * first fetch raises and a retry would follow, the run is that fetch, then `close()`, then the
   * exception.
   */
  lemma NegativeRetryDelayStopsRun(codes: seq<Company>, st: Settings, sv: Services)
    requires HandlerOpens(sv) && st.retryDelay < 0.0 && st.maxRetries >= 2 && sv.fetch(0) == FetchRaised
    requires |Visited(codes, st)| >= 1
    ensures var r := Run(Some(codes), st, sv);
      r.aborted && r.events == [Fetch(TradingViewSymbol(Visited(codes, st)[0].symbol)), Close]
  {
    var v := Visited(codes, st);
    var last := codes[|codes| - 1];
    var a := Attempt(v[0], 0, START, st, sv);
    AttemptBehaviour(v[0], 0, START, st, sv);
    assert a.after.aborted && a.after.events == [Fetch(TradingViewSymbol(v[0].symbol))];
    var s := CompanyStep(v[0], last, START, st, sv);
    assert s == a.after;
    assert RunCompanies(v, last, START, st, sv) == RunCompanies(v[1..], last, s, st, sv) == s;
  }

  /** The timeout fetcher's result always has the snapshot keys, so the "no data received" branch is never taken with it. */
  lemma TimeoutFetchIsTruthy(data: map<string, Json>)
    requires data.Keys == Snapshot.KEY_SET
    ensures IsTruthyData(Some(data))
  {
    assert Snapshot.SNAPSHOT_KEYS[29] == "symbol";
    assert "symbol" in data;
  }
}
