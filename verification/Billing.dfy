/**
 * What the model requests of a session cost, what its meter records of that,
 * and what reaches the cost rows of its thread.
 */
module Billing {
  import opened Common
  import opened Money
  import St = Store

  /** The events of a session that carry money. */
  datatype MoneyEvent = CostUpdated(delta: Cost) | StepFinished(stepCost: Cost) | SubagentFinished(subagentCost: Cost)

  /** A turn of an agent: its finished steps, and whether it gets to its end. */
  datatype AgentTurn = AgentTurn(steps: seq<StepUsage>, rates: Rates, completes: bool)

  /** A scout or reviewer is one turn of an agent of its own; `reports` is false when it throws instead of reporting. */
  datatype Scout = Scout(turn: AgentTurn, reports: bool)

  /**
   * What a session does with money: turns, research calls, with whether their
   * report files can be written, document reviews, and images.
   */
  datatype Spending =
    | OwnTurn(turn: AgentTurn)
    | Research(scouts: seq<Scout>, written: bool)
    | Review(reviewer: Scout)
    | Image(usd: real)

  function Dollars(costs: seq<Cost>): real {
    if costs == [] then 0.0 else costs[0].usd + Dollars(costs[1..])
  }

  // ----- What the meters see -----

  /** The price of every finished step, whether or not the turn completes. */
  function TurnPrice(t: AgentTurn): real { StepDollars(t.steps, t.rates) }

  /** What the turn adds to the meter of its own agent: its summed report, at its end. */
  function TurnRecord(t: AgentTurn): Cost {
    if t.completes then PriceUsageReport(TotalUsage(t.steps), t.rates, TotalSearches(t.steps)) else ZERO_COST
  }

  /** The cost that a scout reports: the session total of its own, fresh meter. */
  function Reported(s: Scout): Cost { if s.reports then TurnRecord(s.turn) else ZERO_COST }

  function ScoutPrices(scouts: seq<Scout>): real {
    if scouts == [] then 0.0 else TurnPrice(scouts[0].turn) + ScoutPrices(scouts[1..])
  }

  function Billed(x: Spending): real {
    match x
    case OwnTurn(turn) => TurnPrice(turn)
    case Research(scouts, _) => ScoutPrices(scouts)
    case Review(reviewer) => TurnPrice(reviewer.turn)
    case Image(usd) => usd
  }

  /** What the session total grows by. No scout is recorded when a report cannot be written, and no image ever is. */
  function Metered(x: Spending): real {
    match x
    case OwnTurn(turn) => TurnRecord(turn).usd
    case Research(scouts, written) => if written then Dollars(MapSeq(Reported, scouts)) else 0.0
    case Review(reviewer) => Reported(reviewer).usd
    case Image(_) => 0.0
  }

  // ----- What they do not see -----

  /** The steps of a failed turn, and the uncached input that a summed report no longer shows. */
  function TurnLoss(t: AgentTurn): real {
    if t.completes
    then Times(Max(0, StepBuckets(t.steps).uncachedInput - TurnBuckets(t.steps).uncachedInput), PerInputToken(t.rates))
    else TurnPrice(t)
  }

  function ScoutLoss(s: Scout): real { if s.reports then TurnLoss(s.turn) else TurnPrice(s.turn) }

  function ScoutLosses(scouts: seq<Scout>): real {
    if scouts == [] then 0.0 else ScoutLoss(scouts[0]) + ScoutLosses(scouts[1..])
  }

  function Unrecorded(x: Spending): real {
    match x
    case OwnTurn(turn) => TurnLoss(turn)
    case Research(scouts, written) => if written then ScoutLosses(scouts) else ScoutPrices(scouts)
    case Review(reviewer) => ScoutLoss(reviewer)
    case Image(usd) => usd
  }

  // ----- When nothing is missing -----

  predicate CostsNothing(t: AgentTurn) {
    forall s :: s in t.steps ==> PriceUsageReport(s.usage, t.rates, s.webSearches).usd == 0.0
  }

  /** A turn that completes and whose summed report hides no priced input, or one whose steps cost nothing. */
  predicate TurnIsWhole(t: AgentTurn) {
    if t.completes
    then StepBuckets(t.steps).uncachedInput == TurnBuckets(t.steps).uncachedInput || t.rates.inputPerMtok == 0.0
    else CostsNothing(t)
  }

  predicate ScoutIsWhole(s: Scout) { if s.reports then TurnIsWhole(s.turn) else CostsNothing(s.turn) }

  predicate RecordsAll(x: Spending) {
    match x
    case OwnTurn(turn) => TurnIsWhole(turn)
    case Research(scouts, written) => forall s :: s in scouts ==> if written then ScoutIsWhole(s) else CostsNothing(s.turn)
    case Review(reviewer) => ScoutIsWhole(reviewer)
    case Image(usd) => usd == 0.0
  }

  predicate ValidSpending(x: Spending) {
    match x
    case OwnTurn(turn) => ValidRates(turn.rates)
    case Research(scouts, _) => forall s :: s in scouts ==> ValidRates(s.turn.rates)
    case Review(reviewer) => ValidRates(reviewer.turn.rates)
    case Image(usd) => usd >= 0.0
  }

  function TotalBilled(xs: seq<Spending>): real {
    if xs == [] then 0.0 else Billed(xs[0]) + TotalBilled(xs[1..])
  }

  function TotalMetered(xs: seq<Spending>): real {
    if xs == [] then 0.0 else Metered(xs[0]) + TotalMetered(xs[1..])
  }

  function TotalUnrecorded(xs: seq<Spending>): real {
    if xs == [] then 0.0 else Unrecorded(xs[0]) + TotalUnrecorded(xs[1..])
  }

  lemma PriceNotNegative(u: Buckets, rates: Rates)
    requires ValidRates(rates)
    ensures PriceUsage(u, rates).usd >= 0.0
  {
    ProductNotNegative(PerInputToken(rates), rates.cacheWriteMultiplier);
    ProductNotNegative(PerInputToken(rates), rates.cacheReadMultiplier);
    NotNegative(u.uncachedInput, PerInputToken(rates));
    NotNegative(u.cacheWrite, PerWriteToken(rates));
    NotNegative(u.cacheRead, PerReadToken(rates));
    NotNegative(u.output, PerOutputToken(rates));
    NotNegative(u.webSearches, rates.webSearchPerCall);
  }

  lemma ProductNotNegative(x: real, y: real)
    requires x >= 0.0 && y >= 0.0
    ensures x * y >= 0.0
  {
  }

  lemma {:induction false} StepDollarsZeroIff(steps: seq<StepUsage>, rates: Rates)
    requires ValidRates(rates)
    ensures StepDollars(steps, rates) >= 0.0
    ensures StepDollars(steps, rates) == 0.0
       <==> forall s :: s in steps ==> PriceUsageReport(s.usage, rates, s.webSearches).usd == 0.0
  {
    if steps != [] {
      var first := PriceUsageReport(steps[0].usage, rates, steps[0].webSearches).usd;
      PriceNotNegative(UsageToBuckets(steps[0].usage).(webSearches := steps[0].webSearches), rates);
      StepDollarsZeroIff(steps[1..], rates);
      assert forall s :: s in steps <==> s == steps[0] || s in steps[1..];
    }
  }

  lemma TurnSplits(t: AgentTurn)
    requires ValidRates(t.rates)
    ensures TurnPrice(t) == TurnRecord(t).usd + TurnLoss(t) && TurnLoss(t) >= 0.0
    ensures TurnLoss(t) == 0.0 <==> TurnIsWhole(t)
    ensures TurnPrice(t) >= 0.0 && (TurnPrice(t) == 0.0 <==> CostsNothing(t))
  {
    StepDollarsZeroIff(t.steps, t.rates);
    if t.completes {
      StepsCoverTurn(t.steps, t.rates);
      NotNegative(StepBuckets(t.steps).uncachedInput - TurnBuckets(t.steps).uncachedInput, PerInputToken(t.rates));
    }
  }

  lemma ScoutSplits(s: Scout)
    requires ValidRates(s.turn.rates)
    ensures TurnPrice(s.turn) == Reported(s).usd + ScoutLoss(s) && ScoutLoss(s) >= 0.0
    ensures ScoutLoss(s) == 0.0 <==> ScoutIsWhole(s)
  {
    TurnSplits(s.turn);
  }

  lemma {:induction false} ScoutsSplit(scouts: seq<Scout>)
    requires forall s :: s in scouts ==> ValidRates(s.turn.rates)
    ensures ScoutPrices(scouts) == Dollars(MapSeq(Reported, scouts)) + ScoutLosses(scouts) && ScoutLosses(scouts) >= 0.0
    ensures ScoutLosses(scouts) == 0.0 <==> forall s :: s in scouts ==> ScoutIsWhole(s)
  {
    if scouts != [] {
      ScoutSplits(scouts[0]);
      ScoutsSplit(scouts[1..]);
      assert MapSeq(Reported, scouts)[1..] == MapSeq(Reported, scouts[1..]);
      assert forall s :: s in scouts <==> s == scouts[0] || s in scouts[1..];
    }
  }

  lemma {:induction false} ScoutPricesZeroIff(scouts: seq<Scout>)
    requires forall s :: s in scouts ==> ValidRates(s.turn.rates)
    ensures ScoutPrices(scouts) >= 0.0
    ensures ScoutPrices(scouts) == 0.0 <==> forall s :: s in scouts ==> CostsNothing(s.turn)
  {
    if scouts != [] {
      TurnSplits(scouts[0].turn);
      ScoutPricesZeroIff(scouts[1..]);
      assert forall s :: s in scouts <==> s == scouts[0] || s in scouts[1..];
    }
  }

  lemma OneBilled(x: Spending)
    requires ValidSpending(x)
    ensures Billed(x) == Metered(x) + Unrecorded(x) && Unrecorded(x) >= 0.0
    ensures Unrecorded(x) == 0.0 <==> RecordsAll(x)
  {
    match x
    case OwnTurn(turn) => TurnSplits(turn);
    case Research(scouts, written) => if written { ScoutsSplit(scouts); } else { ScoutPricesZeroIff(scouts); }
    case Review(reviewer) => ScoutSplits(reviewer);
    case Image(_) =>
  }

  /**
   * Over any run, the billed dollars exceed the metered ones by exactly what was
   * left unrecorded; nothing is left unrecorded exactly when every spending
   * records all of its own.
   */
  lemma {:induction false} BilledIsMeteredIff(xs: seq<Spending>)
    requires forall x :: x in xs ==> ValidSpending(x)
    ensures TotalBilled(xs) == TotalMetered(xs) + TotalUnrecorded(xs) && TotalUnrecorded(xs) >= 0.0
    ensures TotalBilled(xs) == TotalMetered(xs) <==> forall x :: x in xs ==> RecordsAll(x)
  {
    if xs != [] {
      OneBilled(xs[0]);
      BilledIsMeteredIff(xs[1..]);
      assert forall x :: x in xs <==> x == xs[0] || x in xs[1..];
    }
  }

  const ONE_TOKEN := StepUsage(NO_USAGE.(input := Some(1)), 0)
  const THREE_DOLLARS_A_TOKEN := Rates(3000000.0, 0.0, 0.0, 0.0, 0.0)

  lemma OneTokenBuckets()
    ensures UsageToBuckets(ONE_TOKEN.usage) == Buckets(1, 0, 0, 0, 0, 0)
    ensures AddUsage(ONE_TOKEN.usage, NO_USAGE) == Usage(Some(1), None, None, None, None, None)
  {
  }

  lemma OneTokenPrice()
    ensures PriceUsageReport(ONE_TOKEN.usage, THREE_DOLLARS_A_TOKEN, 0).usd == 3.0
  {
    OneTokenBuckets();
    assert PerInputToken(THREE_DOLLARS_A_TOKEN) == 3.0;
    assert Times(1, 3.0) == 3.0 + Times(0, 3.0);
  }

  /** One finished step of three dollars. */
  lemma ThreeDollarTurn(completes: bool) returns (t: AgentTurn)
    ensures ValidRates(t.rates) && t.completes == completes && TurnPrice(t) == 3.0
    ensures completes ==> TurnIsWhole(t)
  {
    OneTokenPrice();
    OneTokenBuckets();
    var steps := [ONE_TOKEN];
    assert steps[1..] == [];
    assert StepBuckets(steps) == AddBuckets(Buckets(1, 0, 0, 0, 0, 0), ZERO_BUCKETS);
    assert TotalUsage(steps) == AddUsage(ONE_TOKEN.usage, NO_USAGE);
    assert StepDollars(steps, THREE_DOLLARS_A_TOKEN) == 3.0 + StepDollars(steps[1..], THREE_DOLLARS_A_TOKEN);
    t := AgentTurn(steps, THREE_DOLLARS_A_TOKEN, completes);
  }

  /**
   * Three dollars billed and none metered: a turn that fails after a step, a scout
   * whose turn does, and a scout that completes when its report cannot be written.
   */
  lemma NotMetered() returns (turn: Spending, scout: Spending, unwritten: Spending)
    ensures turn.OwnTurn? && scout.Research? && scout.written && unwritten.Research? && !unwritten.written
    ensures forall x :: x in [turn, scout, unwritten] ==> ValidSpending(x) && Billed(x) == 3.0 && Metered(x) == 0.0
    ensures forall s :: s in unwritten.scouts ==> ScoutIsWhole(s)
  {
    var failed := ThreeDollarTurn(false);
    var completed := ThreeDollarTurn(true);
    turn := OwnTurn(failed);
    scout := Research([Scout(failed, true)], true);
    unwritten := Research([Scout(completed, true)], false);
    OneScout(Scout(failed, true));
    OneScout(Scout(completed, true));
  }

  lemma OneScout(s: Scout)
    ensures ScoutPrices([s]) == TurnPrice(s.turn) && Dollars(MapSeq(Reported, [s])) == Reported(s).usd
  {
    assert [s][1..] == [] && MapSeq(Reported, [s]) == [Reported(s)] && [Reported(s)][1..] == [];
  }

  // ----- The ledger -----

  /** The dollars of a thread's rows. */
  function RowDollars(rows: seq<St.CostRow>, id: string): real { St.SumOf(St.CostsOf(rows, id)).usd }

  lemma {:induction false} SumSnoc(rows: seq<St.CostRow>, row: St.CostRow)
    ensures St.SumOf(rows + [row]).usd == St.SumOf(rows).usd + row.cost.usd
  {
    if rows == [] {
      assert rows + [row] == [row] && [row][1..] == [];
    } else {
      assert (rows + [row])[1..] == rows[1..] + [row];
      SumSnoc(rows[1..], row);
    }
  }

  lemma OneMoreRow(rows: seq<St.CostRow>, id: string, cost: Cost)
    ensures RowDollars(rows + [St.CostRow(id, cost)], id) == RowDollars(rows, id) + cost.usd
  {
    var row := St.CostRow(id, cost);
    St.CostsOfSnoc(rows, row, id);
    SumSnoc(St.CostsOf(rows, id), row);
  }

  lemma FirstRecord(cost: Cost)
    ensures AddCost(ZERO_COST, cost) == cost
  {
  }

  /** The costs that a spending puts into the meter, one by one. */
  function Records(x: Spending): seq<Cost> {
    match x
    case OwnTurn(turn) => if turn.completes then [TurnRecord(turn)] else []
    case Research(scouts, written) => if written then MapSeq(Reported, scouts) else []
    case Review(reviewer) => if reviewer.reports then [Reported(reviewer)] else []
    case Image(_) => []
  }

  /** The costs that it sends to the rows: research sends the dollars of all its scouts as one. */
  function RowsFor(x: Spending): seq<Cost> {
    match x
    case Research(scouts, written) => if written then [Cost(ZERO_BUCKETS, Dollars(MapSeq(Reported, scouts)))] else []
    case _ => Records(x)
  }

  function AddAll(start: Cost, costs: seq<Cost>): Cost
    decreases |costs|
  {
    if costs == [] then start else AddAll(AddCost(start, costs[0]), costs[1..])
  }

  lemma AddOne(start: Cost, cost: Cost)
    ensures AddAll(start, [cost]) == AddCost(start, cost)
  {
    assert [cost][1..] == [];
    assert AddAll(start, [cost]) == AddAll(AddCost(start, cost), []);
  }

  lemma {:induction false} AddAllDollars(start: Cost, costs: seq<Cost>)
    ensures AddAll(start, costs).usd == start.usd + Dollars(costs)
    decreases |costs|
  {
    if costs != [] {
      AddAllDollars(AddCost(start, costs[0]), costs[1..]);
    }
  }

  lemma OneDollars(cost: Cost)
    ensures Dollars([cost]) == cost.usd
  {
    assert [cost][1..] == [];
  }

  /** Both add up to what is metered. */
  lemma RecordsAreMetered(x: Spending)
    ensures Dollars(Records(x)) == Metered(x) && Dollars(RowsFor(x)) == Metered(x)
  {
    match x
    case OwnTurn(turn) => OneDollars(TurnRecord(turn));
    case Research(scouts, written) => OneDollars(Cost(ZERO_BUCKETS, Dollars(MapSeq(Reported, scouts))));
    case Review(reviewer) => OneDollars(Reported(reviewer));
    case Image(_) =>
  }

  /** A failed turn, an unreported review, unwritten research and an image leave no record and no row, not even one of nothing. */
  lemma FailureLeavesNoRow(x: Spending)
    ensures match x
            case OwnTurn(turn) => |Records(x)| == |RowsFor(x)| == if turn.completes then 1 else 0
            case Research(scouts, written) =>
              |Records(x)| == (if written then |scouts| else 0) && |RowsFor(x)| == (if written then 1 else 0)
            case Review(reviewer) => |Records(x)| == |RowsFor(x)| == if reviewer.reports then 1 else 0
            case Image(_) => Records(x) == RowsFor(x) == []
  {
  }

  /** The rows of a thread for these costs. */
  function AsRows(id: string, costs: seq<Cost>): seq<St.CostRow> {
    if costs == [] then [] else [St.CostRow(id, costs[0])] + AsRows(id, costs[1..])
  }

  /** New rows of one thread add their dollars to it, and leave every other thread's rows as they are. */
  lemma {:induction false} RowsAdd(rows: seq<St.CostRow>, id: string, costs: seq<Cost>)
    ensures RowDollars(rows + AsRows(id, costs), id) == RowDollars(rows, id) + Dollars(costs)
    ensures forall other :: other != id ==> St.CostsOf(rows + AsRows(id, costs), other) == St.CostsOf(rows, other)
    decreases |costs|
  {
    if costs == [] {
      assert rows + AsRows(id, costs) == rows;
    } else {
      var row := St.CostRow(id, costs[0]);
      assert rows + AsRows(id, costs) == rows + [row] + AsRows(id, costs[1..]);
      RowsAdd(rows + [row], id, costs[1..]);
      OneMoreRow(rows, id, costs[0]);
      forall other | other != id ensures St.CostsOf(rows + [row], other) == St.CostsOf(rows, other) {
        St.CostsOfSnoc(rows, row, other);
        assert St.CostsOf(rows, other) + [] == St.CostsOf(rows, other);
      }
    }
  }

  /** The session total of a fresh meter after one turn. */
  method OwnTotal(t: AgentTurn) returns (total: Cost)
    ensures total == TurnRecord(t)
  {
    var own := new Meter();
    if t.completes {
      var record := PriceUsageReport(TotalUsage(t.steps), t.rates, TotalSearches(t.steps));
      own.Record(record);
      FirstRecord(record);
    }
    total := own.session;
  }

  /** A session of a thread: its meter, and the store that its event hook writes to. */
  class Ledger {
    const meter: Meter
    const store: St.Store
    const thread: string

    constructor (store: St.Store, thread: string)
      ensures this.store == store && this.thread == thread && fresh(meter) && meter.session == ZERO_COST
    {
      this.store, this.thread := store, thread;
      meter := new Meter();
    }

    ghost predicate Valid()
      reads this, store
    {
      store.Valid()
    }

    /** What the rows of the thread add up to. */
    function Ledgered(): real
      reads this, store
    {
      RowDollars(store.costs, thread)
    }

    /** The part of some dollars that reaches the rows: all of it while the thread is there. */
    ghost function Kept(dollars: real): real
      reads this, store
    {
      if thread in store.model then dollars else 0.0
    }

    /** The rows that these costs reach. */
    ghost function Stored(costs: seq<Cost>): seq<St.CostRow>
      reads this, store
    {
      if thread in store.model then AsRows(thread, costs) else []
    }

    /** The hook: only `cost.updated` reaches the store, which refuses it once the thread is gone. */
    method Emit(e: MoneyEvent)
      requires Valid()
      modifies store`costs
      ensures Valid()
      ensures store.costs == old(store.costs) + Stored(if e.CostUpdated? then [e.delta] else [])
    {
      if e.CostUpdated? {
        assert AsRows(thread, [e.delta]) == [St.CostRow(thread, e.delta)];
        var r := store.RecordCost(thread, e.delta);
      }
    }

    /** Every step is priced and shown; nothing is recorded. */
    method EmitSteps(steps: seq<StepUsage>, rates: Rates) returns (shown: real)
      requires Valid()
      modifies store`costs
      ensures shown == StepDollars(steps, rates)
      ensures Valid() && store.costs == old(store.costs)
    {
      shown := 0.0;
      assert steps[0..] == steps;
      for i := 0 to |steps|
        invariant Valid() && store.costs == old(store.costs)
        invariant shown + StepDollars(steps[i..], rates) == StepDollars(steps, rates)
      {
        assert steps[i..][1..] == steps[i + 1..];
        var cost := PriceUsageReport(steps[i].usage, rates, steps[i].webSearches);
        Emit(StepFinished(cost));
        shown := shown + cost.usd;
      }
    }

    /** A cost goes into the meter, and then to the rows. */
    method RecordOne(cost: Cost)
      requires Valid()
      modifies store`costs, meter
      ensures Valid()
      ensures meter.session == AddCost(old(meter.session), cost) == AddAll(old(meter.session), [cost])
      ensures meter.run == AddCost(old(meter.run), cost) == AddAll(old(meter.run), [cost])
      ensures store.costs == old(store.costs) + Stored([cost])
    {
      meter.Record(cost);
      AddOne(old(meter.session), cost);
      AddOne(old(meter.run), cost);
      Emit(CostUpdated(cost));
    }

    /** A turn starts a run, prices every step for show, and records the whole once, at the end, if it gets there. */
    method Turn(t: AgentTurn) returns (shown: real)
      requires Valid()
      modifies store`costs, meter
      ensures Valid()
      ensures shown == Billed(OwnTurn(t))
      ensures meter.session == AddAll(old(meter.session), Records(OwnTurn(t)))
      ensures meter.run == TurnRecord(t)
      ensures store.costs == old(store.costs) + Stored(RowsFor(OwnTurn(t)))
    {
      meter.StartRun();
      shown := EmitSteps(t.steps, t.rates);
      if t.completes {
        var cost := PriceUsageReport(TotalUsage(t.steps), t.rates, TotalSearches(t.steps));
        RecordOne(cost);
        FirstRecord(cost);
      }
    }

    /** A scout's turn runs on a meter of its own; what comes back is that meter's total, or nothing. */
    method SpawnScout(s: Scout) returns (cost: Cost)
      requires Valid()
      modifies store`costs
      ensures cost == Reported(s)
      ensures Valid() && store.costs == old(store.costs)
    {
      cost := OwnTotal(s.turn);
      Emit(SubagentFinished(cost));
      if !s.reports {
        cost := ZERO_COST;
      }
    }

    /**
     * A research call: the scouts run, their reports are written, and only then
     * each goes into the meter and their dollars into one row.
     */
    method RunResearch(scouts: seq<Scout>, written: bool)
      requires Valid()
      modifies store`costs, meter
      ensures Valid()
      ensures meter.session == AddAll(old(meter.session), Records(Research(scouts, written)))
      ensures meter.run == AddAll(old(meter.run), Records(Research(scouts, written)))
      ensures store.costs == old(store.costs) + Stored(RowsFor(Research(scouts, written)))
    {
      var costs := [];
      for i := 0 to |scouts|
        invariant Valid() && store.costs == old(store.costs)
        invariant meter.session == old(meter.session) && meter.run == old(meter.run)
        invariant costs == MapSeq(Reported, scouts[..i])
      {
        var cost := SpawnScout(scouts[i]);
        costs := costs + [cost];
        assert scouts[..i + 1] == scouts[..i] + [scouts[i]];
      }
      assert scouts[..|scouts|] == scouts;
      if !written { return; }
      RecordEach(costs);
      Emit(CostUpdated(Cost(ZERO_BUCKETS, Dollars(costs))));
    }

    /** Each scout's cost goes into the meter. */
    method RecordEach(costs: seq<Cost>)
      modifies meter
      ensures meter.session == AddAll(old(meter.session), costs)
      ensures meter.run == AddAll(old(meter.run), costs)
    {
      assert costs[0..] == costs;
      for i := 0 to |costs|
        invariant AddAll(meter.session, costs[i..]) == AddAll(old(meter.session), costs)
        invariant AddAll(meter.run, costs[i..]) == AddAll(old(meter.run), costs)
      {
        assert costs[i..][1..] == costs[i + 1..];
        meter.Record(costs[i]);
      }
    }

    /** A review records what its scout reports; when that throws, there is nothing to record. */
    method RunReview(reviewer: Scout)
      requires Valid()
      modifies store`costs, meter
      ensures Valid()
      ensures meter.session == AddAll(old(meter.session), Records(Review(reviewer)))
      ensures meter.run == AddAll(old(meter.run), Records(Review(reviewer)))
      ensures store.costs == old(store.costs) + Stored(RowsFor(Review(reviewer)))
    {
      var cost := SpawnScout(reviewer);
      if reviewer.reports {
        RecordOne(cost);
      }
    }

    /** One spending: meter and rows grow by the same dollars while the thread is there, and no other thread's rows change. */
    method Spend(x: Spending)
      requires Valid()
      modifies store`costs, meter
      ensures Valid()
      ensures meter.session.usd == old(meter.session.usd) + Metered(x)
      ensures Ledgered() == old(Ledgered()) + Kept(Metered(x))
      ensures thread !in store.model ==> store.costs == old(store.costs)
      ensures forall other :: other != thread ==> St.CostsOf(store.costs, other) == old(St.CostsOf(store.costs, other))
    {
      match x {
        case OwnTurn(turn) => var shown := Turn(turn);
        case Research(scouts, written) => RunResearch(scouts, written);
        case Review(reviewer) => RunReview(reviewer);
        case Image(_) =>
          assert store.costs == old(store.costs) + Stored([]);
      }
      RecordsAreMetered(x);
      AddAllDollars(old(meter.session), Records(x));
      if thread in store.model {
        RowsAdd(old(store.costs), thread, RowsFor(x));
      } else {
        assert store.costs == old(store.costs);
      }
    }

    /** The same over any run of spendings. */
    method SpendAll(xs: seq<Spending>)
      requires Valid()
      modifies store`costs, meter
      ensures Valid()
      ensures meter.session.usd == old(meter.session.usd) + TotalMetered(xs)
      ensures Ledgered() == old(Ledgered()) + Kept(TotalMetered(xs))
      ensures thread !in store.model ==> store.costs == old(store.costs)
      ensures forall other :: other != thread ==> St.CostsOf(store.costs, other) == old(St.CostsOf(store.costs, other))
    {
      assert xs[0..] == xs;
      for i := 0 to |xs|
        invariant Valid() && (thread !in store.model ==> store.costs == old(store.costs))
        invariant meter.session.usd + TotalMetered(xs[i..]) == old(meter.session.usd) + TotalMetered(xs)
        invariant Ledgered() + Kept(TotalMetered(xs[i..])) == old(Ledgered()) + Kept(TotalMetered(xs))
        invariant forall other :: other != thread ==> St.CostsOf(store.costs, other) == old(St.CostsOf(store.costs, other))
      {
        assert xs[i..][1..] == xs[i + 1..];
        Spend(xs[i]);
      }
    }
  }

  /**
   * A session, and the deletion of its thread in the middle: up to the deletion
   * the rows gained what the meter shows; afterwards the thread has no rows, and
   * the meter has gone on by exactly what was metered since.
   */
  method LedgerEqualsMeter(store: St.Store, thread: string, before: seq<Spending>, after: seq<Spending>)
    returns (gained: real, atDeletion: real, left: real, session: real)
    requires store.Valid() && thread in store.model
    modifies store
    ensures gained == atDeletion == TotalMetered(before)
    ensures left == 0.0 && St.CostsOf(store.costs, thread) == []
    ensures session - atDeletion == TotalMetered(after)
  {
    var ledger := new Ledger(store, thread);
    var start := ledger.Ledgered();
    ledger.SpendAll(before);
    gained, atDeletion := ledger.Ledgered() - start, ledger.meter.session.usd;
    St.DeletionSparesOthers(store.costs, thread, thread);
    store.DeleteThread(thread);
    ledger.SpendAll(after);
    left, session := ledger.Ledgered(), ledger.meter.session.usd;
  }
}
