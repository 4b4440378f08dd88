/** Prices, running totals and the spend ceiling. Dollars are exact here. */
module Money {
  import opened Common

  datatype Buckets = Buckets(
    uncachedInput: nat, cacheWrite: nat, cacheRead: nat, output: nat, reasoning: nat, webSearches: nat)

  datatype Cost = Cost(buckets: Buckets, usd: real)

  const ZERO_BUCKETS := Buckets(0, 0, 0, 0, 0, 0)
  const ZERO_COST := Cost(ZERO_BUCKETS, 0.0)

  function AddBuckets(a: Buckets, b: Buckets): Buckets {
    Buckets(a.uncachedInput + b.uncachedInput, a.cacheWrite + b.cacheWrite, a.cacheRead + b.cacheRead,
            a.output + b.output, a.reasoning + b.reasoning, a.webSearches + b.webSearches)
  }

  function AddCost(a: Cost, b: Cost): Cost { Cost(AddBuckets(a.buckets, b.buckets), a.usd + b.usd) }

  datatype Rates = Rates(inputPerMtok: real, outputPerMtok: real, cacheWriteMultiplier: real, cacheReadMultiplier: real, webSearchPerCall: real)

  predicate ValidRates(r: Rates) {
    r.inputPerMtok >= 0.0 && r.outputPerMtok >= 0.0 && r.cacheWriteMultiplier >= 0.0 && r.cacheReadMultiplier >= 0.0
    && r.webSearchPerCall >= 0.0
  }

  function PerInputToken(r: Rates): real { r.inputPerMtok / 1000000.0 }
  function PerOutputToken(r: Rates): real { r.outputPerMtok / 1000000.0 }
  function PerWriteToken(r: Rates): real { PerInputToken(r) * r.cacheWriteMultiplier }
  function PerReadToken(r: Rates): real { PerInputToken(r) * r.cacheReadMultiplier }

  /** The product of a count and a price, as repeated addition. */
  function Times(n: nat, price: real): real {
    if n == 0 then 0.0 else price + Times(n - 1, price)
  }

  lemma {:induction false} TimesIsProduct(n: nat, price: real)
    ensures Times(n, price) == n as real * price
  {
    if n > 0 {
      TimesIsProduct(n - 1, price);
      OneMore((n - 1) as real, price);
    }
  }

  lemma OneMore(x: real, price: real)
    ensures (x + 1.0) * price == x * price + price
  {
  }

  /** Reasoning tokens are inside the output tokens and are not priced again. */
  function PriceUsage(u: Buckets, rates: Rates): Cost {
    Cost(u,
         Times(u.uncachedInput, PerInputToken(rates))
         + Times(u.cacheWrite, PerWriteToken(rates))
         + Times(u.cacheRead, PerReadToken(rates))
         + Times(u.output, PerOutputToken(rates))
         + Times(u.webSearches, rates.webSearchPerCall))
  }

  lemma {:induction false} Distribute(a: nat, b: nat, p: real)
    ensures Times(a + b, p) == Times(a, p) + Times(b, p)
  {
    if a > 0 { Distribute(a - 1, b, p); }
  }

  lemma {:induction false} NotNegative(a: nat, p: real)
    requires p >= 0.0
    ensures Times(a, p) >= 0.0
    ensures Times(a, p) == 0.0 <==> a == 0 || p == 0.0
  {
    if a > 0 { NotNegative(a - 1, p); }
  }

  /** Pricing is additive over usage. */
  lemma PriceAdd(a: Buckets, b: Buckets, rates: Rates)
    ensures PriceUsage(AddBuckets(a, b), rates) == AddCost(PriceUsage(a, rates), PriceUsage(b, rates))
  {
    Distribute(a.uncachedInput, b.uncachedInput, PerInputToken(rates));
    Distribute(a.cacheWrite, b.cacheWrite, PerWriteToken(rates));
    Distribute(a.cacheRead, b.cacheRead, PerReadToken(rates));
    Distribute(a.output, b.output, PerOutputToken(rates));
    Distribute(a.webSearches, b.webSearches, rates.webSearchPerCall);
  }

  /** Usage that differs only by more uncached input costs that much more. */
  lemma MoreUncachedInput(less: Buckets, more: Buckets, rates: Rates)
    requires more == less.(uncachedInput := more.uncachedInput) && less.uncachedInput <= more.uncachedInput
    requires rates.inputPerMtok >= 0.0
    ensures CostsExtra(PriceUsage(less, rates).usd, PriceUsage(more, rates).usd, more.uncachedInput - less.uncachedInput, rates)
  {
    Distribute(less.uncachedInput, more.uncachedInput - less.uncachedInput, PerInputToken(rates));
    NotNegative(more.uncachedInput - less.uncachedInput, PerInputToken(rates));
  }

  /** The second price is the first and `tokens` of uncached input more. */
  predicate CostsExtra(less: real, more: real, tokens: nat, rates: Rates) {
    && more == less + Times(tokens, PerInputToken(rates))
    && more >= less
    && (tokens == 0 ==> more == less)
  }

  lemma PerMillion(n: nat, each: real, price: real, rate: real, multiplier: real)
    requires 1000000.0 * each == rate && price == each * multiplier
    ensures 1000000.0 * Times(n, price) == n as real * multiplier * rate
  {
    TimesIsProduct(n, price);
    var x := n as real;
    assert 1000000.0 * (x * (each * multiplier)) == x * multiplier * (1000000.0 * each);
  }

  lemma MillionTimes(a: real, b: real, c: real, d: real, e: real, x: real, y: real, z: real, v: real, w: real)
    requires 1000000.0 * a == x && 1000000.0 * b == y && 1000000.0 * c == z && 1000000.0 * d == v && 1000000.0 * e == w
    ensures 1000000.0 * (a + b + c + d + e) == x + y + z + v + w
  {
  }

  lemma BucketPrices(u: Buckets, rates: Rates)
    ensures 1000000.0 * Times(u.uncachedInput, PerInputToken(rates)) == u.uncachedInput as real * rates.inputPerMtok
    ensures 1000000.0 * Times(u.cacheWrite, PerWriteToken(rates)) == u.cacheWrite as real * rates.cacheWriteMultiplier * rates.inputPerMtok
    ensures 1000000.0 * Times(u.cacheRead, PerReadToken(rates)) == u.cacheRead as real * rates.cacheReadMultiplier * rates.inputPerMtok
    ensures 1000000.0 * Times(u.output, PerOutputToken(rates)) == u.output as real * rates.outputPerMtok
    ensures 1000000.0 * Times(u.webSearches, rates.webSearchPerCall) == 1000000.0 * (u.webSearches as real * rates.webSearchPerCall)
  {
    var input, output := PerInputToken(rates), PerOutputToken(rates);
    PerMillion(u.uncachedInput, input, input, rates.inputPerMtok, 1.0);
    PerMillion(u.cacheWrite, input, PerWriteToken(rates), rates.inputPerMtok, rates.cacheWriteMultiplier);
    PerMillion(u.cacheRead, input, PerReadToken(rates), rates.inputPerMtok, rates.cacheReadMultiplier);
    PerMillion(u.output, output, output, rates.outputPerMtok, 1.0);
    TimesIsProduct(u.webSearches, rates.webSearchPerCall);
  }

  /**
   * The tariff, per million tokens: fresh input at the input rate, what is written
   * to and read from the cache at multiples of it, output at the output rate, and
   * searches by the call. Reasoning is in the output and is not charged again.
   */
  lemma PriceIsTariff(u: Buckets, rates: Rates)
    ensures PriceUsage(u, rates).buckets == u
    ensures 1000000.0 * PriceUsage(u, rates).usd
         == u.uncachedInput as real * rates.inputPerMtok
            + u.cacheWrite as real * rates.cacheWriteMultiplier * rates.inputPerMtok
            + u.cacheRead as real * rates.cacheReadMultiplier * rates.inputPerMtok
            + u.output as real * rates.outputPerMtok
            + 1000000.0 * (u.webSearches as real * rates.webSearchPerCall)
  {
    BucketPrices(u, rates);
    MillionTimes(Times(u.uncachedInput, PerInputToken(rates)), Times(u.cacheWrite, PerWriteToken(rates)),
                 Times(u.cacheRead, PerReadToken(rates)), Times(u.output, PerOutputToken(rates)),
                 Times(u.webSearches, rates.webSearchPerCall),
                 u.uncachedInput as real * rates.inputPerMtok,
                 u.cacheWrite as real * rates.cacheWriteMultiplier * rates.inputPerMtok,
                 u.cacheRead as real * rates.cacheReadMultiplier * rates.inputPerMtok,
                 u.output as real * rates.outputPerMtok,
                 1000000.0 * (u.webSearches as real * rates.webSearchPerCall));
  }

  // ----- Usage reports -----

  /** What a provider reports for one step; any field may be missing. */
  datatype Usage = Usage(
    input: Option<nat>, noCache: Option<nat>, cacheRead: Option<nat>, cacheWrite: Option<nat>,
    output: Option<nat>, reasoning: Option<nat>)

  const NO_USAGE := Usage(None, None, None, None, None, None)

  function Or0(n: Option<nat>): nat { if n.Some? then n.value else 0 }

  function UsageToBuckets(u: Usage): Buckets {
    var cacheRead, cacheWrite := Or0(u.cacheRead), Or0(u.cacheWrite);
    var uncached := if u.noCache.Some? then u.noCache.value else Max(0, Or0(u.input) - cacheRead - cacheWrite);
    Buckets(uncached, cacheWrite, cacheRead, Or0(u.output), Or0(u.reasoning), 0)
  }

  function PriceUsageReport(u: Usage, rates: Rates, webSearches: nat): Cost {
    PriceUsage(UsageToBuckets(u).(webSearches := webSearches), rates)
  }

  /**
   * Every reported token is in one bucket: with the uncached part reported it is
   * taken as it is, and otherwise it is what the cache does not account for, so
   * that the three input buckets make up the reported input.
   */
  lemma EveryTokenIsBilled(u: Usage)
    ensures var b := UsageToBuckets(u);
            && (u.noCache.Some? ==> b.uncachedInput == u.noCache.value)
            && (u.noCache.None? && u.input.Some? && u.input.value >= b.cacheRead + b.cacheWrite ==>
                  b.uncachedInput + b.cacheRead + b.cacheWrite == u.input.value)
            && (u.noCache.None? && (u.input.None? || u.input.value < b.cacheRead + b.cacheWrite) ==> b.uncachedInput == 0)
            && b.cacheRead == (if u.cacheRead.Some? then u.cacheRead.value else 0)
            && b.cacheWrite == (if u.cacheWrite.Some? then u.cacheWrite.value else 0)
            && b.output == (if u.output.Some? then u.output.value else 0)
            && b.reasoning == (if u.reasoning.Some? then u.reasoning.value else 0)
  {
  }

  function AddReported(a: Option<nat>, b: Option<nat>): Option<nat> {
    if a.None? && b.None? then None else Some(Or0(a) + Or0(b))
  }

  /** The component-wise sum that a turn reports for its steps. */
  function AddUsage(a: Usage, b: Usage): Usage {
    Usage(AddReported(a.input, b.input), AddReported(a.noCache, b.noCache), AddReported(a.cacheRead, b.cacheRead),
          AddReported(a.cacheWrite, b.cacheWrite), AddReported(a.output, b.output), AddReported(a.reasoning, b.reasoning))
  }

  datatype StepUsage = StepUsage(usage: Usage, webSearches: nat)

  function TotalUsage(steps: seq<StepUsage>): Usage {
    if steps == [] then NO_USAGE else AddUsage(steps[0].usage, TotalUsage(steps[1..]))
  }

  function TotalSearches(steps: seq<StepUsage>): nat {
    if steps == [] then 0 else steps[0].webSearches + TotalSearches(steps[1..])
  }

  /** The dollars shown step by step. */
  function StepDollars(steps: seq<StepUsage>, rates: Rates): real {
    if steps == [] then 0.0 else PriceUsageReport(steps[0].usage, rates, steps[0].webSearches).usd + StepDollars(steps[1..], rates)
  }

  function StepBuckets(steps: seq<StepUsage>): Buckets {
    if steps == [] then ZERO_BUCKETS
    else AddBuckets(UsageToBuckets(steps[0].usage).(webSearches := steps[0].webSearches), StepBuckets(steps[1..]))
  }

  lemma {:induction false} StepDollarsAreBuckets(steps: seq<StepUsage>, rates: Rates)
    ensures StepDollars(steps, rates) == PriceUsage(StepBuckets(steps), rates).usd
  {
    if steps != [] {
      StepDollarsAreBuckets(steps[1..], rates);
      PriceAdd(UsageToBuckets(steps[0].usage).(webSearches := steps[0].webSearches), StepBuckets(steps[1..]), rates);
    }
  }

  /** The buckets that the turn as a whole is priced by. */
  function TurnBuckets(steps: seq<StepUsage>): Buckets {
    UsageToBuckets(TotalUsage(steps)).(webSearches := TotalSearches(steps))
  }

  /** Two reports as one: every bucket but the uncached input adds up. */
  lemma BucketsOfSum(u: Usage, v: Usage)
    ensures var total := UsageToBuckets(AddUsage(u, v));
            total == AddBuckets(UsageToBuckets(u), UsageToBuckets(v)).(uncachedInput := total.uncachedInput)
  {
  }

  /** The uncached input can only lose, and does not when both reports carry it. */
  lemma UncachedOfSum(u: Usage, v: Usage)
    ensures var both := UsageToBuckets(u).uncachedInput + UsageToBuckets(v).uncachedInput;
            && UsageToBuckets(AddUsage(u, v)).uncachedInput <= both
            && (u.noCache.Some? && (v.noCache.Some? || v == NO_USAGE) ==> UsageToBuckets(AddUsage(u, v)).uncachedInput == both)
  {
  }

  lemma {:induction false} StepUncachedVsTotal(steps: seq<StepUsage>)
    ensures StepBuckets(steps).uncachedInput >= TurnBuckets(steps).uncachedInput
    ensures AllReportUncached(steps) ==>
              StepBuckets(steps).uncachedInput == TurnBuckets(steps).uncachedInput
              && (TotalUsage(steps).noCache.Some? || TotalUsage(steps) == NO_USAGE)
  {
    if steps != [] {
      StepUncachedVsTotal(steps[1..]);
      UncachedOfSum(steps[0].usage, TotalUsage(steps[1..]));
      assert steps[0] in steps;
    }
  }

  lemma {:induction false} StepOthersVsTotal(steps: seq<StepUsage>)
    ensures StepBuckets(steps) == TurnBuckets(steps).(uncachedInput := StepBuckets(steps).uncachedInput)
  {
    if steps != [] {
      StepOthersVsTotal(steps[1..]);
      BucketsOfSum(steps[0].usage, TotalUsage(steps[1..]));
    }
  }

  /** Every bucket but the uncached input adds up over the steps; that one can only lose. */
  lemma StepBucketsVsTotal(steps: seq<StepUsage>)
    ensures StepBuckets(steps) == TurnBuckets(steps).(uncachedInput := StepBuckets(steps).uncachedInput)
    ensures StepBuckets(steps).uncachedInput >= TurnBuckets(steps).uncachedInput
    ensures AllReportUncached(steps) ==> StepBuckets(steps).uncachedInput == TurnBuckets(steps).uncachedInput
  {
    StepUncachedVsTotal(steps);
    StepOthersVsTotal(steps);
  }

  predicate AllReportUncached(steps: seq<StepUsage>) { forall s :: s in steps ==> s.usage.noCache.Some? }

  /**
   * The step prices of a turn add up to at least the turn's price, exactly so
   * when every step reports its uncached tokens; what they add beyond it is the
   * uncached input that the total no longer shows.
   */
  lemma StepsCoverTurn(steps: seq<StepUsage>, rates: Rates)
    requires ValidRates(rates)
    ensures TurnBuckets(steps).uncachedInput <= StepBuckets(steps).uncachedInput
    ensures CostsExtra(PriceUsageReport(TotalUsage(steps), rates, TotalSearches(steps)).usd, StepDollars(steps, rates),
                       StepBuckets(steps).uncachedInput - TurnBuckets(steps).uncachedInput, rates)
    ensures AllReportUncached(steps) ==> StepBuckets(steps).uncachedInput == TurnBuckets(steps).uncachedInput
  {
    StepDollarsAreBuckets(steps, rates);
    StepBucketsVsTotal(steps);
    MoreUncachedInput(TurnBuckets(steps), StepBuckets(steps), rates);
  }

  // ----- The meter and the ceiling -----

  datatype Limits = Limits(perRunUsd: real, perSessionUsd: real)

  predicate ValidLimits(l: Limits) { l.perRunUsd > 0.0 && l.perSessionUsd > 0.0 }

  datatype BudgetError = RunExceeded(spent: real, limit: real) | SessionExceeded(spent: real, limit: real)

  class Meter {
    var run: Cost
    var session: Cost

    constructor ()
      ensures run == ZERO_COST && session == ZERO_COST
    {
      run, session := ZERO_COST, ZERO_COST;
    }

    method Record(cost: Cost)
      modifies this
      ensures run == AddCost(old(run), cost) && session == AddCost(old(session), cost)
    {
      run := AddCost(run, cost);
      session := AddCost(session, cost);
    }

    method StartRun()
      modifies this`run
      ensures run == ZERO_COST
    {
      run := ZERO_COST;
    }
  }

  /** The verdict before a model request. */
  function Verdict(run: real, session: real, limits: Limits): Option<BudgetError> {
    if run >= limits.perRunUsd then Some(RunExceeded(run, limits.perRunUsd))
    else if session >= limits.perSessionUsd then Some(SessionExceeded(session, limits.perSessionUsd))
    else None
  }

  function MaxReal(a: real, b: real): real { if a > b then a else b }
  function MinReal(a: real, b: real): real { if a < b then a else b }

  class BudgetGuard {
    const meter: Meter
    const limits: Limits

    constructor (meter: Meter, limits: Limits)
      ensures this.meter == meter && this.limits == limits
    {
      this.meter, this.limits := meter, limits;
    }

    /** None when the request may proceed. */
    method AssertCanProceed() returns (error: Option<BudgetError>)
      ensures error == Verdict(meter.run.usd, meter.session.usd, limits)
    {
      var run := meter.run.usd;
      if run >= limits.perRunUsd { return Some(RunExceeded(run, limits.perRunUsd)); }
      var session := meter.session.usd;
      if session >= limits.perSessionUsd { return Some(SessionExceeded(session, limits.perSessionUsd)); }
      error := None;
    }

    method IsTripped() returns (tripped: bool)
      ensures tripped <==> Verdict(meter.run.usd, meter.session.usd, limits).Some?
    {
      var error := AssertCanProceed();
      tripped := error.Some?;
    }

    method Record(cost: Cost)
      modifies meter
      ensures meter.run == AddCost(old(meter.run), cost) && meter.session == AddCost(old(meter.session), cost)
    {
      meter.Record(cost);
    }

    function Remaining(): (real, real)
      reads this, meter
    {
      (MaxReal(0.0, limits.perRunUsd - meter.run.usd), MaxReal(0.0, limits.perSessionUsd - meter.session.usd))
    }

    /** The limits are not zero: nothing can be divided by them otherwise. */
    function Utilisation(): real
      reads this, meter
      requires ValidLimits(limits)
    {
      MinReal(1.0, MaxReal(meter.run.usd / limits.perRunUsd, meter.session.usd / limits.perSessionUsd))
    }

    /** Below the limits, what is spent and what remains make up each limit, and the utilisation is the greater of the two fractions. */
    lemma SpentAndRemaining()
      requires ValidLimits(limits)
      ensures meter.run.usd <= limits.perRunUsd ==> meter.run.usd + Remaining().0 == limits.perRunUsd
      ensures meter.session.usd <= limits.perSessionUsd ==> meter.session.usd + Remaining().1 == limits.perSessionUsd
      ensures Verdict(meter.run.usd, meter.session.usd, limits).None? ==>
                && Utilisation() >= meter.run.usd / limits.perRunUsd && Utilisation() >= meter.session.usd / limits.perSessionUsd
                && (Utilisation() == meter.run.usd / limits.perRunUsd || Utilisation() == meter.session.usd / limits.perSessionUsd)
    {
      RatioReachesOne(meter.run.usd, limits.perRunUsd);
      RatioReachesOne(meter.session.usd, limits.perSessionUsd);
    }

    /** Tripped, nothing remaining in one of the scopes, and full utilisation are the same thing. */
    lemma TrippedIff()
      requires ValidLimits(limits)
      ensures Verdict(meter.run.usd, meter.session.usd, limits).Some? <==> Remaining().0 == 0.0 || Remaining().1 == 0.0
      ensures Verdict(meter.run.usd, meter.session.usd, limits).Some? <==> Utilisation() == 1.0
    {
      RatioReachesOne(meter.run.usd, limits.perRunUsd);
      RatioReachesOne(meter.session.usd, limits.perSessionUsd);
    }
  }

  lemma RatioReachesOne(x: real, limit: real)
    requires limit > 0.0
    ensures x / limit >= 1.0 <==> x >= limit
  {
    assert x == x / limit * limit;
    if x / limit >= 1.0 {
      assert x / limit * limit >= 1.0 * limit;
    } else {
      assert x / limit * limit < 1.0 * limit;
    }
  }

  // ----- Runs of the guard -----

  datatype Event = Check | Record(cost: Cost) | StartRun

  /** The totals, and the dollars recorded since a check last passed. */
  datatype State = State(run: real, session: real, sinceCheck: real)

  function Step(s: State, e: Event, limits: Limits): State {
    match e
    case Check => if Verdict(s.run, s.session, limits).None? then s.(sinceCheck := 0.0) else s
    case Record(cost) => State(s.run + cost.usd, s.session + cost.usd, s.sinceCheck + cost.usd)
    case StartRun => s.(run := 0.0)
  }

  function Run(s: State, events: seq<Event>, limits: Limits): State
    decreases |events|
  {
    if events == [] then s else Run(Step(s, events[0], limits), events[1..], limits)
  }

  const FRESH := State(0.0, 0.0, 0.0)

  /** A fresh guard and its meter go through exactly these states. */
  method DriveGuard(events: seq<Event>, limits: Limits) returns (guard: BudgetGuard, sinceCheck: real)
    ensures guard.limits == limits
    ensures State(guard.meter.run.usd, guard.meter.session.usd, sinceCheck) == Run(FRESH, events, limits)
  {
    var meter := new Meter();
    guard := new BudgetGuard(meter, limits);
    sinceCheck := 0.0;
    for i := 0 to |events|
      invariant guard.limits == limits && fresh(guard.meter)
      invariant Run(State(guard.meter.run.usd, guard.meter.session.usd, sinceCheck), events[i..], limits) == Run(FRESH, events, limits)
    {
      assert events[i..][1..] == events[i + 1..];
      match events[i] {
        case Check =>
          var error := guard.AssertCanProceed();
          if error.None? { sinceCheck := 0.0; }
        case Record(cost) =>
          guard.Record(cost);
          sinceCheck := sinceCheck + cost.usd;
        case StartRun =>
          guard.meter.StartRun();
      }
    }
  }

  /** The dollars of all records, and of those after the last start of a run. */
  function Recorded(events: seq<Event>): real {
    if events == [] then 0.0 else (if events[0].Record? then events[0].cost.usd else 0.0) + Recorded(events[1..])
  }

  predicate StartsNoRun(events: seq<Event>) { forall e :: e in events ==> !e.StartRun? }

  lemma {:induction false} SessionIsSum(s: State, events: seq<Event>, limits: Limits)
    ensures Run(s, events, limits).session == s.session + Recorded(events)
    ensures StartsNoRun(events) ==> Run(s, events, limits).run == s.run + Recorded(events)
    decreases |events|
  {
    if events != [] {
      SessionIsSum(Step(s, events[0], limits), events[1..], limits);
      assert events[0] in events;
    }
  }

  lemma {:induction false} RunAppend(s: State, a: seq<Event>, b: seq<Event>, limits: Limits)
    ensures Run(s, a + b, limits) == Run(Run(s, a, limits), b, limits)
    decreases |a|
  {
    if a == [] {
      assert a + b == b;
    } else {
      assert (a + b)[1..] == a[1..] + b;
      RunAppend(Step(s, a[0], limits), a[1..], b, limits);
    }
  }

  /** The session total is the sum of all records; the run total is that of the records since the run was started. */
  lemma TotalsAreSums(before: seq<Event>, since: seq<Event>, limits: Limits)
    requires StartsNoRun(since)
    ensures var s := Run(FRESH, before + [StartRun] + since, limits);
            s.session == Recorded(before) + Recorded(since) && s.run == Recorded(since)
    ensures Run(FRESH, since, limits).run == Recorded(since)
  {
    RunAppend(FRESH, before + [StartRun], since, limits);
    RunAppend(FRESH, before, [StartRun], limits);
    var s := Run(FRESH, before, limits);
    assert [StartRun][1..] == [];
    assert Run(s, [StartRun], limits) == Run(Step(s, StartRun, limits), [], limits);
    SessionIsSum(FRESH, before, limits);
    SessionIsSum(Step(s, StartRun, limits), since, limits);
    SessionIsSum(FRESH, since, limits);
  }

  lemma {:induction false} SinceCheckGrows(s: State, events: seq<Event>, limits: Limits)
    requires Check !in events
    ensures Run(s, events, limits).sinceCheck == s.sinceCheck + Recorded(events)
    decreases |events|
  {
    if events != [] {
      SinceCheckGrows(Step(s, events[0], limits), events[1..], limits);
    }
  }

  /** The dollars that the bound allows for are those recorded since the last check that passed. */
  lemma SinceCheckIsSum(before: seq<Event>, since: seq<Event>, limits: Limits)
    requires Check !in since
    requires Verdict(Run(FRESH, before, limits).run, Run(FRESH, before, limits).session, limits).None?
    ensures Run(FRESH, before + [Check] + since, limits).sinceCheck == Recorded(since)
  {
    RunAppend(FRESH, before + [Check], since, limits);
    RunAppend(FRESH, before, [Check], limits);
    var s := Run(FRESH, before, limits);
    assert [Check][1..] == [];
    assert Run(s, [Check], limits) == Run(Step(s, Check, limits), [], limits);
    SinceCheckGrows(Step(s, Check, limits), since, limits);
  }

  /** A refusal names a scope that has reached its limit, the run first. */
  lemma VerdictNamesScope(run: real, session: real, limits: Limits)
    ensures match Verdict(run, session, limits)
            case None => run < limits.perRunUsd && session < limits.perSessionUsd
            case Some(RunExceeded(spent, limit)) => spent == run && limit == limits.perRunUsd && spent >= limit
            case Some(SessionExceeded(spent, limit)) =>
              spent == session && limit == limits.perSessionUsd && spent >= limit && run < limits.perRunUsd
  {
  }

  predicate RecordsAreCosts(events: seq<Event>) { forall e :: e in events && e.Record? ==> e.cost.usd >= 0.0 }

  predicate Inv(s: State, limits: Limits) {
    && 0.0 <= s.run <= s.session && 0.0 <= s.sinceCheck
    && s.run < limits.perRunUsd + s.sinceCheck
    && s.session < limits.perSessionUsd + s.sinceCheck
  }

  lemma {:induction false} RunKeepsInv(s: State, events: seq<Event>, limits: Limits)
    requires Inv(s, limits) && ValidLimits(limits) && RecordsAreCosts(events)
    ensures Inv(Run(s, events, limits), limits) && Run(s, events, limits).session >= s.session
    decreases |events|
  {
    if events != [] {
      assert events[0] in events;
      assert Inv(Step(s, events[0], limits), limits);
      RunKeepsInv(Step(s, events[0], limits), events[1..], limits);
    }
  }

  /** At every point, each total is below its limit plus what was recorded since a check last passed. */
  lemma OvershootIsBounded(events: seq<Event>, limits: Limits)
    requires ValidLimits(limits) && RecordsAreCosts(events)
    ensures Inv(Run(FRESH, events, limits), limits)
  {
    RunKeepsInv(FRESH, events, limits);
  }

  /** Once the session limit is reached, no later check passes. */
  lemma SessionLimitIsFinal(before: seq<Event>, after: seq<Event>, limits: Limits)
    requires ValidLimits(limits) && RecordsAreCosts(before) && RecordsAreCosts(after)
    requires Run(FRESH, before, limits).session >= limits.perSessionUsd
    ensures var s := Run(Run(FRESH, before, limits), after, limits); Verdict(s.run, s.session, limits).Some?
  {
    RunKeepsInv(FRESH, before, limits);
    RunKeepsInv(Run(FRESH, before, limits), after, limits);
  }
}
