/**
 * The spend ceiling against what the steps of turns cost while the turns run.
 * Turns of one session may overlap. Every step is checked before it starts, and
 * against recorded totals only; a turn is recorded at its end.
 */
module Overshoot {
  import opened Common
  import Money

  /** Turns are numbered in the order in which they pass their first check. */
  datatype Event =
    | BeginTurn
    | StartStep(turn: nat)
    | FinishStep(turn: nat, usd: real)
    | RecordScout(turn: nat, usd: real)
    | EndTurn(turn: nat, price: real)
    | FailTurn(turn: nat)

  /**
   * A turn: the dollars of its steps not yet recorded, everything it has cost,
   * whether it runs and whether a step of it does, and whether it was running when
   * the recorded session total reached its limit.
   */
  datatype Turn = Turn(pending: real, cost: real, running: bool, inStep: bool, atLimit: bool)

  /** The recorded totals, all turns so far, the dollars no record will ever show, and what everything has cost. */
  datatype State = State(run: real, session: real, turns: seq<Turn>, lost: real, billed: real)

  const FRESH := State.State(0.0, 0.0, [], 0.0, 0.0)

  predicate MayProceed(s: State, limits: Money.Limits) { Money.Verdict(s.run, s.session, limits).None? }

  predicate Reached(s: State, limits: Money.Limits) { s.session >= limits.perSessionUsd }

  /** Notes which turns run at the moment the limit is reached. */
  function Marked(turns: seq<Turn>): seq<Turn> { MapSeq((t: Turn) => t.(atLimit := t.running), turns) }

  /** Dollars are recorded; the first record that reaches the limit leaves its mark. */
  function Recorded(s: State, usd: real, limits: Money.Limits): State {
    var t := s.(run := s.run + usd, session := s.session + usd);
    if !Reached(s, limits) && Reached(t, limits) then t.(turns := Marked(t.turns)) else t
  }

  function Ended(t: Turn): Turn { t.(pending := 0.0, running := false, inStep := false) }

  /** The turn is given up: what it has not recorded, nothing will. */
  function Failed(s: State, i: nat): State
    requires i < |s.turns|
  {
    s.(turns := s.turns[i := Ended(s.turns[i])], lost := s.lost + s.turns[i].pending)
  }

  predicate Runs(s: State, i: nat) { i < |s.turns| && s.turns[i].running }

  /** A turn begins by resetting the run total, which all turns share, and with a check. */
  function Begun(s: State, limits: Money.Limits): State {
    var t := s.(run := 0.0);
    if MayProceed(t, limits) then t.(turns := t.turns + [Turn(0.0, 0.0, true, false, false)]) else t
  }

  function Step(s: State, e: Event, limits: Money.Limits): State {
    match e
    case BeginTurn => Begun(s, limits)
    case StartStep(i) =>
      if !Runs(s, i) then s
      else if !MayProceed(s, limits) then Failed(s, i)
      else s.(turns := s.turns[i := s.turns[i].(inStep := true)])
    case FinishStep(i, usd) =>
      if !Runs(s, i) || !s.turns[i].inStep then s
      else
        var t := s.turns[i];
        s.(turns := s.turns[i := t.(pending := t.pending + usd, cost := t.cost + usd, inStep := false)], billed := s.billed + usd)
    case RecordScout(i, usd) =>
      if !Runs(s, i) then s
      else Recorded(s.(turns := s.turns[i := s.turns[i].(cost := s.turns[i].cost + usd)], billed := s.billed + usd), usd, limits)
    case EndTurn(i, price) =>
      if !Runs(s, i) then s
      else
        var recorded := Money.MinReal(price, s.turns[i].pending);
        var t := Recorded(s, recorded, limits);
        t.(turns := t.turns[i := Ended(t.turns[i])], lost := t.lost + (s.turns[i].pending - recorded))
    case FailTurn(i) => if Runs(s, i) then Failed(s, i) else s
  }

  function Run(s: State, events: seq<Event>, limits: Money.Limits): State
    decreases |events|
  {
    if events == [] then s else Run(Step(s, events[0], limits), events[1..], limits)
  }

  predicate IsCost(e: Event) {
    match e
    case FinishStep(_, usd) => usd >= 0.0
    case RecordScout(_, usd) => usd >= 0.0
    case EndTurn(_, price) => price >= 0.0
    case _ => true
  }

  // ----- Sums over the turns -----

  /** The dollars of steps that are not recorded yet. */
  function Pending(turns: seq<Turn>): real {
    if turns == [] then 0.0 else turns[0].pending + Pending(turns[1..])
  }

  /** A turn that runs, or ran when the limit was reached. */
  predicate Counts(t: Turn) { t.running || t.atLimit }

  /** What the turns that count have cost. */
  function Exposure(turns: seq<Turn>): real {
    if turns == [] then 0.0 else (if Counts(turns[0]) then turns[0].cost else 0.0) + Exposure(turns[1..])
  }

  lemma {:induction false} SumsOfUpdate(turns: seq<Turn>, i: nat, t: Turn)
    requires i < |turns|
    ensures Pending(turns[i := t]) == Pending(turns) - turns[i].pending + t.pending
    ensures Exposure(turns[i := t])
         == Exposure(turns) - (if Counts(turns[i]) then turns[i].cost else 0.0) + if Counts(t) then t.cost else 0.0
  {
    if i == 0 {
      assert turns[i := t][1..] == turns[1..];
    } else {
      assert turns[i := t][1..] == turns[1..][i - 1 := t];
      SumsOfUpdate(turns[1..], i - 1, t);
    }
  }

  lemma {:induction false} SumsOfSnoc(turns: seq<Turn>, t: Turn)
    ensures Pending(turns + [t]) == Pending(turns) + t.pending
    ensures Exposure(turns + [t]) == Exposure(turns) + if Counts(t) then t.cost else 0.0
  {
    if turns == [] {
      assert turns + [t] == [t] && [t][1..] == [];
    } else {
      assert (turns + [t])[1..] == turns[1..] + [t];
      SumsOfSnoc(turns[1..], t);
    }
  }

  /** Marking changes no sum while no turn carries a mark. */
  lemma {:induction false} SumsOfMarked(turns: seq<Turn>)
    requires forall t :: t in turns ==> !t.atLimit
    ensures Pending(Marked(turns)) == Pending(turns) && Exposure(Marked(turns)) == Exposure(turns)
  {
    if turns != [] {
      assert turns[0] in turns && Marked(turns)[1..] == Marked(turns[1..]);
      SumsOfMarked(turns[1..]);
    }
  }

  predicate IsTurn(t: Turn) { 0.0 <= t.pending <= t.cost && (!t.running ==> t.pending == 0.0 && !t.inStep) }

  lemma {:induction false} PendingWithinExposure(turns: seq<Turn>)
    requires forall t :: t in turns ==> IsTurn(t)
    ensures 0.0 <= Pending(turns) <= Exposure(turns)
  {
    if turns != [] {
      assert turns[0] in turns;
      PendingWithinExposure(turns[1..]);
    }
  }

  // ----- The bound -----

  /** Below the limit no turn carries a mark; from it on, every running turn does. */
  predicate MarksAgree(s: State, limits: Money.Limits) {
    if Reached(s, limits) then forall t :: t in s.turns && t.running ==> t.atLimit
    else forall t :: t in s.turns ==> !t.atLimit
  }

  predicate Inv(s: State, limits: Money.Limits) {
    && s.billed == s.session + Pending(s.turns) + s.lost
    && 0.0 <= s.run <= s.session && 0.0 <= s.lost
    && (forall t :: t in s.turns ==> IsTurn(t))
    && MarksAgree(s, limits)
    && s.session + Pending(s.turns) < limits.perSessionUsd + Exposure(s.turns)
  }

  /** Everything but the bound, which below the limit needs no keeping. */
  predicate Kept(s: State, limits: Money.Limits) {
    && s.billed == s.session + Pending(s.turns) + s.lost
    && 0.0 <= s.run <= s.session && 0.0 <= s.lost
    && (forall t :: t in s.turns ==> IsTurn(t))
    && MarksAgree(s, limits)
  }

  lemma BelowTheLimit(s: State, limits: Money.Limits)
    requires Kept(s, limits) && !Reached(s, limits)
    ensures Inv(s, limits)
  {
    PendingWithinExposure(s.turns);
  }

  lemma UpdatedTurns(turns: seq<Turn>, i: nat, t: Turn)
    requires i < |turns|
    ensures forall x :: x in turns[i := t] ==> x == t || x in turns
  {
  }

  lemma FailedKeepsInv(s: State, i: nat, limits: Money.Limits)
    requires Inv(s, limits) && Runs(s, i)
    ensures Inv(Failed(s, i), limits)
  {
    assert s.turns[i] in s.turns;
    SumsOfUpdate(s.turns, i, Ended(s.turns[i]));
    UpdatedTurns(s.turns, i, Ended(s.turns[i]));
    if !Reached(s, limits) { BelowTheLimit(Failed(s, i), limits); }
  }

  lemma BegunKeepsInv(s: State, limits: Money.Limits)
    requires Inv(s, limits) && Money.ValidLimits(limits)
    ensures Inv(Begun(s, limits), limits)
  {
    SumsOfSnoc(s.turns, Turn(0.0, 0.0, true, false, false));
  }

  lemma StartKeepsInv(s: State, i: nat, limits: Money.Limits)
    requires Inv(s, limits)
    ensures Inv(Step(s, StartStep(i), limits), limits)
  {
    if Runs(s, i) {
      if MayProceed(s, limits) {
        var t := s.turns[i].(inStep := true);
        assert s.turns[i] in s.turns;
        SumsOfUpdate(s.turns, i, t);
        UpdatedTurns(s.turns, i, t);
      } else {
        FailedKeepsInv(s, i, limits);
      }
    }
  }

  lemma FinishKeepsInv(s: State, i: nat, usd: real, limits: Money.Limits)
    requires Inv(s, limits) && usd >= 0.0
    ensures Inv(Step(s, FinishStep(i, usd), limits), limits)
  {
    if Runs(s, i) && s.turns[i].inStep {
      var t := s.turns[i].(pending := s.turns[i].pending + usd, cost := s.turns[i].cost + usd, inStep := false);
      assert s.turns[i] in s.turns;
      SumsOfUpdate(s.turns, i, t);
      UpdatedTurns(s.turns, i, t);
    }
  }

  lemma MarkedTurns(turns: seq<Turn>)
    ensures forall x :: x in Marked(turns) ==> exists t :: t in turns && x == t.(atLimit := t.running)
  {
    forall x | x in Marked(turns) ensures exists t :: t in turns && x == t.(atLimit := t.running) {
      var k :| 0 <= k < |turns| && Marked(turns)[k] == x;
      assert turns[k] in turns;
    }
  }

  /** Recording moves the session total and the marks; the sums over the turns stay. */
  lemma RecordedKeeps(s: State, usd: real, limits: Money.Limits)
    requires usd >= 0.0 && 0.0 <= s.run <= s.session && MarksAgree(s, limits) && forall t :: t in s.turns ==> IsTurn(t)
    ensures var r := Recorded(s, usd, limits);
            && r.session == s.session + usd && 0.0 <= r.run <= r.session && r.lost == s.lost && r.billed == s.billed
            && |r.turns| == |s.turns| && Pending(r.turns) == Pending(s.turns) && Exposure(r.turns) == Exposure(s.turns)
            && (forall t :: t in r.turns ==> IsTurn(t)) && MarksAgree(r, limits)
            && forall k :: 0 <= k < |s.turns| ==>
                 r.turns[k] == s.turns[k].(atLimit := r.turns[k].atLimit) && (Reached(r, limits) && s.turns[k].running ==> r.turns[k].atLimit)
  {
    if !Reached(s, limits) && s.session + usd >= limits.perSessionUsd {
      SumsOfMarked(s.turns);
      MarkedTurns(s.turns);
    }
  }

  lemma ScoutKeepsInv(s: State, i: nat, usd: real, limits: Money.Limits)
    requires Inv(s, limits) && usd >= 0.0
    ensures Inv(Step(s, RecordScout(i, usd), limits), limits)
  {
    if Runs(s, i) {
      var t := s.turns[i].(cost := s.turns[i].cost + usd);
      var u := s.(turns := s.turns[i := t], billed := s.billed + usd);
      assert s.turns[i] in s.turns;
      SumsOfUpdate(s.turns, i, t);
      UpdatedTurns(s.turns, i, t);
      RecordedKeeps(u, usd, limits);
    }
  }

  lemma EndKeepsInv(s: State, i: nat, price: real, limits: Money.Limits)
    requires Inv(s, limits) && price >= 0.0
    ensures Inv(Step(s, EndTurn(i, price), limits), limits)
  {
    if Runs(s, i) {
      assert s.turns[i] in s.turns;
      var recorded := Money.MinReal(price, s.turns[i].pending);
      RecordedKeeps(s, recorded, limits);
      var r := Recorded(s, recorded, limits);
      assert r.turns[i] in r.turns;
      SumsOfUpdate(r.turns, i, Ended(r.turns[i]));
      UpdatedTurns(r.turns, i, Ended(r.turns[i]));
      if !Reached(r, limits) { BelowTheLimit(Step(s, EndTurn(i, price), limits), limits); }
    }
  }

  lemma StepKeepsInv(s: State, e: Event, limits: Money.Limits)
    requires Inv(s, limits) && Money.ValidLimits(limits) && IsCost(e)
    ensures Inv(Step(s, e, limits), limits)
  {
    match e
    case BeginTurn => BegunKeepsInv(s, limits);
    case StartStep(i) => StartKeepsInv(s, i, limits);
    case FinishStep(i, usd) => FinishKeepsInv(s, i, usd, limits);
    case RecordScout(i, usd) => ScoutKeepsInv(s, i, usd, limits);
    case EndTurn(i, price) => EndKeepsInv(s, i, price, limits);
    case FailTurn(i) => if Runs(s, i) { FailedKeepsInv(s, i, limits); }
  }

  lemma {:induction false} RunKeepsInv(s: State, events: seq<Event>, limits: Money.Limits)
    requires Inv(s, limits) && Money.ValidLimits(limits) && forall e :: e in events ==> IsCost(e)
    ensures Inv(Run(s, events, limits), limits)
    decreases |events|
  {
    if events != [] {
      assert events[0] in events;
      StepKeepsInv(s, events[0], limits);
      RunKeepsInv(Step(s, events[0], limits), events[1..], limits);
    }
  }

  /**
   * However turns, steps and scouts interleave: what was billed, less what failed
   * turns and summed reports leave unrecorded, stays below the limit plus the
   * dollars of the turns in progress when the limit was reached (of those in
   * progress now, as long as it is not).
   */
  lemma OvershootIsTurnsInProgress(events: seq<Event>, limits: Money.Limits)
    requires Money.ValidLimits(limits) && forall e :: e in events ==> IsCost(e)
    ensures var s := Run(FRESH, events, limits);
            && s.billed - s.lost < limits.perSessionUsd + Exposure(s.turns)
            && (Reached(s, limits) ==> forall t :: t in s.turns && Counts(t) ==> t.atLimit)
            && (!Reached(s, limits) ==> forall t :: t in s.turns && Counts(t) ==> t.running)
  {
    RunKeepsInv(FRESH, events, limits);
  }

  // ----- One turn at a time -----

  /** No turn begins while another runs. */
  predicate OneAtATime(s: State, events: seq<Event>, limits: Money.Limits)
    decreases |events|
  {
    events == []
    || ((events[0].BeginTurn? ==> forall t :: t in s.turns ==> !t.running) && OneAtATime(Step(s, events[0], limits), events[1..], limits))
  }

  /** Only the last turn counts. */
  predicate OnlyLastCounts(turns: seq<Turn>) { forall k :: 0 <= k < |turns| - 1 ==> !Counts(turns[k]) }

  function LastCost(turns: seq<Turn>): real { if turns == [] then 0.0 else turns[|turns| - 1].cost }

  lemma {:induction false} ExposureOfLast(turns: seq<Turn>)
    requires OnlyLastCounts(turns) && forall t :: t in turns ==> IsTurn(t)
    ensures Exposure(turns) <= LastCost(turns)
  {
    if turns != [] {
      assert turns[0] in turns;
      ExposureOfLast(turns[1..]);
    }
  }

  lemma StepKeepsLast(s: State, e: Event, limits: Money.Limits)
    requires Inv(s, limits) && OnlyLastCounts(s.turns) && (e.BeginTurn? ==> forall t :: t in s.turns ==> !t.running)
    ensures OnlyLastCounts(Step(s, e, limits).turns)
  {
  }

  lemma {:induction false} RunKeepsLast(s: State, events: seq<Event>, limits: Money.Limits)
    requires Inv(s, limits) && OnlyLastCounts(s.turns) && OneAtATime(s, events, limits)
    requires Money.ValidLimits(limits) && forall e :: e in events ==> IsCost(e)
    ensures OnlyLastCounts(Run(s, events, limits).turns) && Inv(Run(s, events, limits), limits)
    decreases |events|
  {
    if events != [] {
      assert events[0] in events;
      StepKeepsInv(s, events[0], limits);
      StepKeepsLast(s, events[0], limits);
      RunKeepsLast(Step(s, events[0], limits), events[1..], limits);
    }
  }

  /** When turns do not overlap, the overshoot is at most the dollars of one turn: the latest. */
  lemma OvershootIsOneTurn(events: seq<Event>, limits: Money.Limits)
    requires Money.ValidLimits(limits) && (forall e :: e in events ==> IsCost(e)) && OneAtATime(FRESH, events, limits)
    ensures var s := Run(FRESH, events, limits); s.billed - s.lost < limits.perSessionUsd + LastCost(s.turns)
  {
    RunKeepsLast(FRESH, events, limits);
    ExposureOfLast(Run(FRESH, events, limits).turns);
  }

  // ----- What is no bound -----

  lemma RunCons(s: State, e: Event, rest: seq<Event>, limits: Money.Limits)
    ensures Run(s, [e] + rest, limits) == Run(Step(s, e, limits), rest, limits)
  {
    assert ([e] + rest)[1..] == rest;
  }

  lemma {:induction false} RunAppend(s: State, a: seq<Event>, b: seq<Event>, limits: Money.Limits)
    ensures Run(s, a + b, limits) == Run(Run(s, a, limits), b, limits)
    decreases |a|
  {
    if a == [] {
      assert a + b == b;
    } else {
      assert (a + b)[1..] == a[1..] + b;
      RunAppend(Step(s, a[0], limits), a[1..], b, limits);
    }
  }

  /** One step of turn `i`, from its check to its price. */
  function OneStep(i: nat, usd: real): seq<Event> { [StartStep(i)] + ([FinishStep(i, usd)] + []) }

  function StepsOf(i: nat, costs: seq<real>): seq<Event> {
    if costs == [] then [] else OneStep(i, costs[0]) + StepsOf(i, costs[1..])
  }

  function Sum(costs: seq<real>): real { if costs == [] then 0.0 else costs[0] + Sum(costs[1..]) }

  /** The state after steps of a turn that nothing stopped. */
  function Stepped(s: State, i: nat, usd: real): State
    requires i < |s.turns|
  {
    var t := s.turns[i];
    s.(turns := s.turns[i := t.(pending := t.pending + usd, cost := t.cost + usd, inStep := false)], billed := s.billed + usd)
  }

  lemma OneStepPasses(s: State, i: nat, usd: real, limits: Money.Limits)
    requires Runs(s, i) && MayProceed(s, limits)
    ensures Run(s, OneStep(i, usd), limits) == Stepped(s, i, usd)
  {
    RunCons(s, StartStep(i), [FinishStep(i, usd)] + [], limits);
    RunCons(Step(s, StartStep(i), limits), FinishStep(i, usd), [], limits);
  }

  /** Whatever the steps of a turn cost, none of them is stopped once the turn may proceed: nothing is recorded in between. */
  lemma {:induction false} AllStepsPass(s: State, i: nat, costs: seq<real>, limits: Money.Limits)
    requires Runs(s, i) && !s.turns[i].inStep && MayProceed(s, limits)
    ensures Run(s, StepsOf(i, costs), limits) == Stepped(s, i, Sum(costs))
    decreases |costs|
  {
    if costs == [] {
      assert s.turns[i := s.turns[i]] == s.turns;
    } else {
      var t := Stepped(s, i, costs[0]);
      OneStepPasses(s, i, costs[0], limits);
      RunAppend(s, OneStep(i, costs[0]), StepsOf(i, costs[1..]), limits);
      AllStepsPass(t, i, costs[1..], limits);
      assert t.turns[i := Stepped(t, i, Sum(costs[1..])).turns[i]] == s.turns[i := Stepped(s, i, Sum(costs)).turns[i]];
    }
  }

  lemma {:induction false} StepsOfMembers(i: nat, costs: seq<real>)
    ensures forall e :: e in StepsOf(i, costs) ==> e.StartStep? || (e.FinishStep? && e.usd in costs)
  {
    if costs != [] { StepsOfMembers(i, costs[1..]); }
  }

  lemma SumOfThree(usd: real)
    ensures Sum([usd, usd, usd]) == 3.0 * usd
  {
    assert [usd, usd, usd][1..] == [usd, usd] && [usd, usd][1..] == [usd] && [usd][1..] == [];
    assert Sum([usd]) == usd + Sum([]);
    assert Sum([usd, usd]) == usd + Sum([usd]);
  }

  /** One step is no bound: a first turn of three steps, each as dear as the limit, passes every check. */
  lemma OvershootIsNotOneStep(limits: Money.Limits) returns (events: seq<Event>)
    requires Money.ValidLimits(limits)
    ensures (forall e :: e in events ==> IsCost(e)) && OneAtATime(FRESH, events, limits)
    ensures forall e :: e in events && e.FinishStep? ==> e.usd == limits.perSessionUsd
    ensures Run(FRESH, events, limits).session == 3.0 * limits.perSessionUsd > limits.perSessionUsd + limits.perSessionUsd
  {
    var usd := limits.perSessionUsd;
    var costs := [usd, usd, usd];
    SumOfThree(usd);
    var steps := StepsOf(0, costs);
    StepsOfMembers(0, costs);
    var last := [EndTurn(0, 3.0 * usd)];
    events := [BeginTurn] + (steps + last);
    var s1 := Step(FRESH, BeginTurn, limits);
    var s2 := Stepped(s1, 0, Sum(costs));
    RunCons(FRESH, BeginTurn, steps + last, limits);
    RunAppend(s1, steps, last, limits);
    AllStepsPass(s1, 0, costs, limits);
    RunCons(s2, EndTurn(0, 3.0 * usd), [], limits);
    assert [EndTurn(0, 3.0 * usd)] + [] == last;
    assert OneAtATime(s1, steps + last, limits) by { NoBeginIsOneAtATime(s1, steps + last, limits); }
    assert events[0] == BeginTurn && events[1..] == steps + last;
  }

  lemma {:induction false} NoBeginIsOneAtATime(s: State, events: seq<Event>, limits: Money.Limits)
    requires forall e :: e in events ==> !e.BeginTurn?
    ensures OneAtATime(s, events, limits)
    decreases |events|
  {
    if events != [] {
      assert events[0] in events;
      NoBeginIsOneAtATime(Step(s, events[0], limits), events[1..], limits);
    }
  }

  /** One turn is no bound once turns overlap: two of three times the limit each reach six times the limit. */
  lemma OverlapIsNotOneTurn(limits: Money.Limits)
    requires Money.ValidLimits(limits)
    ensures var usd := 3.0 * limits.perSessionUsd;
            var s := Run(FRESH, [BeginTurn, BeginTurn] + OneStep(0, usd) + OneStep(1, usd) + [EndTurn(0, usd), EndTurn(1, usd)], limits);
            && |s.turns| == 2 && s.turns[0].cost == s.turns[1].cost == usd
            && s.session == 2.0 * usd > limits.perSessionUsd + usd
  {
    var usd := 3.0 * limits.perSessionUsd;
    var s1 := Step(FRESH, BeginTurn, limits);
    var s2 := Step(s1, BeginTurn, limits);
    var s3 := Stepped(s2, 0, usd);
    var s4 := Stepped(s3, 1, usd);
    var s5 := Step(s4, EndTurn(0, usd), limits);
    var ends := [EndTurn(0, usd), EndTurn(1, usd)];
    RunAppend(FRESH, [BeginTurn, BeginTurn] + OneStep(0, usd) + OneStep(1, usd), ends, limits);
    RunAppend(FRESH, [BeginTurn, BeginTurn] + OneStep(0, usd), OneStep(1, usd), limits);
    RunAppend(FRESH, [BeginTurn, BeginTurn], OneStep(0, usd), limits);
    RunOfTwo(FRESH, BeginTurn, BeginTurn, limits);
    OneStepPasses(s2, 0, usd, limits);
    OneStepPasses(s3, 1, usd, limits);
    RunOfTwo(s4, EndTurn(0, usd), EndTurn(1, usd), limits);
  }

  lemma RunOfTwo(s: State, a: Event, b: Event, limits: Money.Limits)
    ensures Run(s, [a, b], limits) == Step(Step(s, a, limits), b, limits)
  {
    RunCons(s, a, [b], limits);
    RunCons(Step(s, a, limits), b, [], limits);
    assert [a] + [b] == [a, b] && [b] + [] == [b];
  }

  /**
   * A turn that may proceed stays within its last step of the limit exactly when
   * what is recorded and what its other steps cost is below the limit, which no
   * check ever asks.
   */
  lemma OneStepBoundIff(s: State, i: nat, costs: seq<real>, last: real, limits: Money.Limits)
    requires Runs(s, i) && !s.turns[i].inStep && MayProceed(s, limits)
    ensures var t := Run(s, StepsOf(i, costs + [last]), limits);
            && Runs(t, i) && t.turns[i].pending == s.turns[i].pending + Sum(costs) + last
            && (t.session + t.turns[i].pending < limits.perSessionUsd + last
                <==> s.session + s.turns[i].pending + Sum(costs) < limits.perSessionUsd)
  {
    AllStepsPass(s, i, costs + [last], limits);
    SumSnoc(costs, last);
  }

  lemma {:induction false} SumSnoc(costs: seq<real>, last: real)
    ensures Sum(costs + [last]) == Sum(costs) + last
  {
    if costs == [] {
      assert costs + [last] == [last] && [last][1..] == [];
    } else {
      assert (costs + [last])[1..] == costs[1..] + [last];
      SumSnoc(costs[1..], last);
    }
  }

  /** `n` turns, from number `i` on, of one step that fail after it. */
  function FailedTurns(i: nat, n: nat, usd: real): seq<Event>
    decreases n
  {
    if n == 0 then [] else [BeginTurn] + (OneStep(i, usd) + ([FailTurn(i)] + FailedTurns(i + 1, n - 1, usd)))
  }

  /** Failed turns never move the recorded totals, so nothing bounds what they cost together. */
  lemma {:induction false} FailedTurnsAreUnbounded(s: State, n: nat, usd: real, limits: Money.Limits)
    requires Money.ValidLimits(limits) && s.session == 0.0
    ensures var t := Run(s, FailedTurns(|s.turns|, n, usd), limits);
            t.session == 0.0 && t.billed == s.billed + Money.Times(n, usd)
    decreases n
  {
    if n > 0 {
      var i := |s.turns|;
      var more := FailedTurns(i + 1, n - 1, usd);
      var s1 := Step(s, BeginTurn, limits);
      var s2 := Stepped(s1, i, usd);
      RunCons(s, BeginTurn, OneStep(i, usd) + ([FailTurn(i)] + more), limits);
      RunAppend(s1, OneStep(i, usd), [FailTurn(i)] + more, limits);
      OneStepPasses(s1, i, usd, limits);
      RunCons(s2, FailTurn(i), more, limits);
      FailedTurnsAreUnbounded(Step(s2, FailTurn(i), limits), n - 1, usd, limits);
    }
  }

  // ----- Behind the limit -----

  /** A reached limit, of the run or of the session, refuses the next step of a turn, which ends it, and a reached session limit every new turn. */
  lemma LimitRefuses(s: State, i: nat, limits: Money.Limits)
    requires Money.ValidLimits(limits)
    ensures Runs(s, i) && (s.run >= limits.perRunUsd || s.session >= limits.perSessionUsd) ==>
              var t := Step(s, StartStep(i), limits);
              !Runs(t, i) && t.lost == s.lost + s.turns[i].pending && t.session == s.session && t.billed == s.billed
    ensures Runs(s, i) && s.run < limits.perRunUsd && s.session < limits.perSessionUsd ==>
              Runs(Step(s, StartStep(i), limits), i) && Step(s, StartStep(i), limits).turns[i].inStep
    ensures s.session >= limits.perSessionUsd ==> Step(s, BeginTurn, limits).turns == s.turns
    ensures s.session < limits.perSessionUsd ==>
              var t := Step(s, BeginTurn, limits);
              |t.turns| == |s.turns| + 1 && Runs(t, |s.turns|) && t.run == 0.0 && t.turns[|s.turns|].pending == 0.0
  {
  }

  /** The event is the end of a step that turn `i` is in. */
  predicate Finishes(s: State, e: Event, i: nat) { e.FinishStep? && e.turn == i && Runs(s, i) && s.turns[i].inStep }

  function FinishedSteps(s: State, events: seq<Event>, i: nat, limits: Money.Limits): nat
    decreases |events|
  {
    if events == [] then 0
    else (if Finishes(s, events[0], i) then 1 else 0) + FinishedSteps(Step(s, events[0], limits), events[1..], i, limits)
  }

  lemma StepBehindLimit(s: State, e: Event, i: nat, limits: Money.Limits)
    requires Inv(s, limits) && Reached(s, limits) && IsCost(e) && i < |s.turns|
    ensures var t := Step(s, e, limits);
            && Reached(t, limits) && |t.turns| == |s.turns|
            && (t.turns[i].running && t.turns[i].inStep ==> s.turns[i].running && s.turns[i].inStep && !Finishes(s, e, i))
  {
    assert e.EndTurn? && Runs(s, e.turn) ==> IsTurn(s.turns[e.turn]);
  }

  /** Once the session limit is reached, no turn begins, and each turn finishes at most the step it is in. */
  lemma {:induction false} OneMoreStepEach(s: State, events: seq<Event>, i: nat, limits: Money.Limits)
    requires Inv(s, limits) && Money.ValidLimits(limits) && (forall e :: e in events ==> IsCost(e))
    requires Reached(s, limits) && i < |s.turns|
    ensures |Run(s, events, limits).turns| == |s.turns|
    ensures FinishedSteps(s, events, i, limits) <= if s.turns[i].running && s.turns[i].inStep then 1 else 0
    decreases |events|
  {
    if events != [] {
      assert events[0] in events;
      StepBehindLimit(s, events[0], i, limits);
      StepKeepsInv(s, events[0], limits);
      OneMoreStepEach(Step(s, events[0], limits), events[1..], i, limits);
    }
  }

  // ----- What is counted where -----

  /** The totals of `t` are those of `s` with these dollars added to what is recorded, lost and billed. */
  predicate Grows(s: State, t: State, recorded: real, lost: real, billed: real) {
    && t.run == s.run + recorded && t.session == s.session + recorded
    && t.lost == s.lost + lost && t.billed == s.billed + billed
  }

  /**
   * Steps are billed and pending; a scout is billed and recorded at once; a turn
   * that ends records its price, up to what is pending, and loses the rest; a turn
   * that fails loses all that is pending. Only ends and failures stop a turn.
   */
  lemma EventsCount(s: State, i: nat, usd: real, limits: Money.Limits)
    requires Runs(s, i) && usd >= 0.0 && s.turns[i].pending >= 0.0
    ensures s.turns[i].inStep ==>
              var t := Step(s, FinishStep(i, usd), limits);
              Grows(s, t, 0.0, 0.0, usd) && Runs(t, i) && !t.turns[i].inStep
              && t.turns[i].pending == s.turns[i].pending + usd && t.turns[i].cost == s.turns[i].cost + usd
    ensures var t := Step(s, RecordScout(i, usd), limits);
            Grows(s, t, usd, 0.0, usd) && Runs(t, i)
            && t.turns[i].pending == s.turns[i].pending && t.turns[i].cost == s.turns[i].cost + usd
    ensures var t := Step(s, EndTurn(i, usd), limits);
            var pending := s.turns[i].pending;
            (if usd <= pending then Grows(s, t, usd, pending - usd, 0.0) else Grows(s, t, pending, 0.0, 0.0))
            && !Runs(t, i) && i < |t.turns| && t.turns[i].pending == 0.0 && t.turns[i].cost == s.turns[i].cost
    ensures var t := Step(s, FailTurn(i), limits);
            Grows(s, t, 0.0, s.turns[i].pending, 0.0) && !Runs(t, i) && i < |t.turns| && t.turns[i].pending == 0.0
  {
  }

  /** What is not running, or not in a step, has no events. */
  lemma OthersCountNothing(s: State, e: Event, limits: Money.Limits)
    requires !e.BeginTurn? && (!Runs(s, e.turn) || (e.FinishStep? && !s.turns[e.turn].inStep))
    ensures Step(s, e, limits) == s
  {
  }

  /** Beginning a turn resets the run total, whether or not the turn may proceed. */
  lemma BeginResetsRun(s: State, limits: Money.Limits)
    ensures Step(s, BeginTurn, limits).run == 0.0 && Step(s, BeginTurn, limits).session == s.session
  {
  }
}
