/**
 * What the supervisor brings about: every command, crash and silence of the
 * child is answered, by the very next events that can happen.
 */
module Supervision {
  import opened Common
  import opened Sidecar

  lemma RunOfThree(s: State, a: Event, b: Event, c: Event)
    ensures Run(s, [a, b, c]) == Step(Step(Step(s, a), b), c)
  {
    RunCons(s, a, [b, c]);
    RunOfTwo(Step(s, a), b, c);
    assert [a] + [b, c] == [a, b, c];
  }

  lemma RunOfOne(s: State, a: Event)
    ensures Run(s, [a]) == Step(s, a)
  {
    RunCons(s, a, []);
    assert [a] + [] == [a];
  }

  /** A child of a new generation is up, held and watched, and is the only one. */
  predicate FreshChild(s: State, t: State, failures: nat) {
    var g := s.generation + 1;
    && t.world.alive == {g} && t.process == Some(g) && t.generation == g
    && t.status == Starting(failures + 1) && t.failures == failures
    && t.watchdog == Some(g) && g in t.world.watchdogs
    && t.readyAt.None? && !t.stopping && !t.restartArmed
    && t.world.launches == s.world.launches + 1
  }

  /**
   * A launch that fails is published with its message, and leaves nothing running
   * or pending; once a process was made, later callbacks of older ones are stale.
   */
  predicate LaunchGivenUp(s: State, t: State, outcome: Outcome)
    requires !outcome.Started?
  {
    && t.status == Failed(LaunchFailed(outcome.message)) && t.process.None? && t.world.alive == {} && !t.restartArmed
    && t.world.launches == s.world.launches + 1
    && (outcome.RunFailed? ==> t.generation == s.generation + 1 && t.readyAt.None?)
    && (outcome.ResolveFailed? ==> t.generation == s.generation)
  }

  /** Everything else that is pending stays so: exits, other watchdogs, delayed kills, and the signals sent. */
  predicate PendingStays(w: World, v: World, watchdogs: set<nat>) {
    v.exits == w.exits && v.killTasks == w.killTasks && v.signals == w.signals && v.watchdogs == watchdogs
  }

  // ----- Commands -----

  /** A start without a child launches one on a fresh budget. */
  lemma StartLaunches(s: State, outcome: Outcome)
    requires Inv(s) && s.process.None? && !s.restartArmed
    ensures var t := Step(s, Start(outcome));
            && (outcome.Started? ==> FreshChild(s, t, 0) && t.world.launchesAtReset == s.world.launches)
            && (!outcome.Started? ==> LaunchGivenUp(s, t, outcome))
  {
    assert s.world.alive == {};
  }

  /** A start while a child is held changes nothing. */
  lemma StartIsIdempotent(s: State, outcome: Outcome)
    requires s.process.Some?
    ensures Step(s, Start(outcome)) == s
  {
  }

  /** Whatever was being stopped, a start without a child forgets it. */
  lemma StartForgetsStop(s: State, outcome: Outcome)
    requires s.process.None?
    ensures !Step(s, Start(outcome)).stopping && !Step(s, Start(outcome)).relaunchAfterStop
  {
  }

  /** A restart without a child launches one at once, whatever restart was pending. */
  lemma RestartLaunches(s: State, outcome: Outcome)
    requires Inv(s) && s.process.None?
    ensures var t := Step(s, RestartNow(outcome));
            && (outcome.Started? ==> FreshChild(s, t, 0) && t.note.None?)
            && (!outcome.Started? ==> LaunchGivenUp(s, t, outcome))
  {
    assert s.world.alive == {};
  }

  /** A restart asks a live child to stop, once, and arms the delayed kill. */
  lemma RestartTerminates(s: State, outcome: Outcome)
    requires Inv(s) && s.process.Some?
    ensures var t := Step(s, RestartNow(outcome));
            var g := s.generation;
            && t.process == Some(g) && t.generation == g && t.stopping && t.world.alive == s.world.alive
            && t.world.launches == s.world.launches && t.failures == 0 && t.note.None? && Inv(t)
            && (g in s.world.alive ==>
                  && t.world.signals == s.world.signals + [Signal(Term, g, g, true)]
                  && t.world.killTasks == s.world.killTasks + multiset{KillTask(g, g)})
            && (g !in s.world.alive ==> t.world.signals == s.world.signals && g in t.world.exits)
  {
    RestartKeepsInv(s, outcome);
  }

  lemma KillReachesLiveChild(s: State)
    requires Inv(s) && s.generation in s.world.alive && KillTask(s.generation, s.generation) in s.world.killTasks
    ensures Step(s, KillFires(KillTask(s.generation, s.generation))).world.signals
         == s.world.signals + [Signal(Kill, s.generation, s.generation, true)]
  {
  }

  /** A child that ignores the request is killed when the delay is over. */
  lemma StubbornChildIsKilled(s: State, outcome: Outcome)
    requires Inv(s) && s.generation in s.world.alive
    ensures var g := s.generation;
            Run(s, [RestartNow(outcome), KillFires(KillTask(g, g))]).world.signals
            == s.world.signals + [Signal(Term, g, g, true), Signal(Kill, g, g, true)]
  {
    RunOfTwo(s, RestartNow(outcome), KillFires(KillTask(s.generation, s.generation)));
    RestartTerminates(s, outcome);
    KillReachesLiveChild(Step(s, RestartNow(outcome)));
  }

  /** The exit that a restart asked for is followed by the launch, on a fresh budget. */
  lemma ExitAfterRestartLaunches(s: State, detail: string, now: int, outcome: Outcome)
    requires Inv(s) && s.stopping && s.generation in s.world.exits
    ensures var t := Step(s, ExitCallback(s.generation, detail, now, outcome));
            && (outcome.Started? ==> FreshChild(s, t, s.failures))
            && (!outcome.Started? ==> LaunchGivenUp(s, t, outcome))
  {
    assert s.world.alive == {};
  }

  /** Whether it dies now or has died already, its exit is then pending. */
  lemma DyingChildExits(s: State)
    requires Inv(s) && s.process.Some?
    ensures var t := Step(s, ChildDies(s.generation));
            && Inv(t) && s.generation in t.world.exits && t.world.launches == s.world.launches
            && t.generation == s.generation && t.stopping == s.stopping && t.failures == s.failures
  {
  }

  lemma StoppedChildIsReplaced(s: State, detail: string, now: int)
    requires Inv(s) && s.process.Some? && s.stopping
    ensures FreshChild(s, Step(Step(s, ChildDies(s.generation)), ExitCallback(s.generation, detail, now, Started)), s.failures)
  {
    DyingChildExits(s);
    ExitAfterRestartLaunches(Step(s, ChildDies(s.generation)), detail, now, Started);
  }

  lemma RestartIsReplaced(s: State, first: Outcome, detail: string, now: int)
    requires Inv(s) && s.process.Some?
    ensures var g := s.generation;
            FreshChild(s, Step(Step(Step(s, RestartNow(first)), ChildDies(g)), ExitCallback(g, detail, now, Started)), 0)
  {
    RestartTerminates(s, first);
    StoppedChildIsReplaced(Step(s, RestartNow(first)), detail, now);
  }

  /** From every state with a child, a restart ends with a new child once the old one is gone. */
  lemma RestartRelaunches(s: State, first: Outcome, detail: string, now: int)
    requires Inv(s) && s.process.Some?
    ensures var g := s.generation;
            FreshChild(s, Run(s, [RestartNow(first), ChildDies(g), ExitCallback(g, detail, now, Started)]), 0)
  {
    var g := s.generation;
    RestartIsReplaced(s, first, detail, now);
    RunOfThree(s, RestartNow(first), ChildDies(g), ExitCallback(g, detail, now, Started));
  }

  /** Stopping asks the live child, kills it if it does not obey, and lets go of everything. */
  lemma StopSignals(s: State, obeys: bool)
    requires Inv(s)
    ensures var t := Step(s, StopBlocking(obeys));
            var g := s.generation;
            && t.status == Idle && t.process.None? && t.world.alive == {} && !t.restartArmed
            && t.world.exits == s.world.exits + (if g in s.world.alive then {g} else {})
            && t.world.signals == s.world.signals
                 + (if g in s.world.alive then [Signal(Term, g, g, true)] else [])
                 + (if g in s.world.alive && !obeys then [Signal(Kill, g, g, true)] else [])
  {
  }

  /** After a stop, the exit that is still to come ends in idle and launches nothing. */
  lemma ExitAfterStopIsIdle(s: State, detail: string, now: int, outcome: Outcome)
    requires s.stopping && !s.relaunchAfterStop && s.generation in s.world.exits
    ensures var t := Step(s, ExitCallback(s.generation, detail, now, outcome));
            t.status == Idle && t.process.None? && t.world.launches == s.world.launches && t.world.alive == s.world.alive
  {
  }

  /** A command after a stop launches as if nothing had been stopped. */
  lemma CommandAfterStopLaunches(s: State, e: Event)
    requires StoppedInv(s) && (e.Start? || e.RestartNow?)
    ensures var t := Step(s, e);
            && (e.outcome.Started? ==> FreshChild(s, t, 0))
            && (!e.outcome.Started? ==> LaunchGivenUp(s, t, e.outcome))
            && !t.stopping && !t.relaunchAfterStop
  {
  }

  // ----- Crashes -----

  /** The failure that an unrequested exit counts as: the first one after a healthy run, one more otherwise. */
  function Failures(s: State, now: int): nat {
    if s.readyAt.Some? && now >= s.readyAt.value + 30 then 1 else s.failures + 1
  }

  /** Why: the watchdog's note if there is one, or how the child ended. */
  function Reason(s: State, detail: string): string { if s.note.Some? then s.note.value else detail }

  /** An unrequested exit is retried after its delay until the fifth failure in a row, which is published for good. */
  lemma CrashIsAnswered(s: State, detail: string, now: int, outcome: Outcome)
    requires Inv(s) && BudgetInv(s) && !s.stopping && s.generation in s.world.exits
    ensures var t := Step(s, ExitCallback(s.generation, detail, now, outcome));
            var n := Failures(s, now);
            && t.process.None? && t.failures == n <= 5 && t.note.None? && t.world.launches == s.world.launches
            && t.world.signals == s.world.signals && t.readyAt.None?
            && (n < 5 ==> t.restartArmed && t.status == Restarting(n + 1, BackoffDelay(n), Reason(s, detail)))
            && (n == 5 ==> !t.restartArmed && t.status == Failed(ExitedRepeatedly(5, Reason(s, detail))))
  {
  }

  /** The restart timer launches, on the budget that is left. */
  lemma RestartTimerLaunches(s: State, outcome: Outcome)
    requires Inv(s) && s.restartArmed
    ensures var t := Step(s, RestartFires(outcome));
            && (outcome.Started? ==> FreshChild(s, t, s.failures))
            && (!outcome.Started? ==> LaunchGivenUp(s, t, outcome))
            && PendingStays(s.world, t.world, s.world.watchdogs + if outcome.Started? then {s.generation + 1} else {})
  {
    assert s.world.alive == {};
  }

  lemma CrashArmsRestart(s: State, detail: string, now: int)
    requires Inv(s) && BudgetInv(s) && !s.stopping && s.generation in s.world.alive && Failures(s, now) < 5
    ensures var t := Step(Step(s, ChildDies(s.generation)), ExitCallback(s.generation, detail, now, Started));
            && Inv(t) && t.restartArmed && t.failures == Failures(s, now)
            && t.generation == s.generation && t.world.launches == s.world.launches
  {
    var t := Step(s, ChildDies(s.generation));
    StepKeepsInv(s, ChildDies(s.generation));
    StepKeepsBudget(s, ChildDies(s.generation));
    CrashIsAnswered(t, detail, now, Started);
    StepKeepsInv(t, ExitCallback(s.generation, detail, now, Started));
  }

  lemma CrashIsReplaced(s: State, detail: string, now: int)
    requires Inv(s) && BudgetInv(s) && !s.stopping && s.generation in s.world.alive && Failures(s, now) < 5
    ensures var g := s.generation;
            FreshChild(s, Step(Step(Step(s, ChildDies(g)), ExitCallback(g, detail, now, Started)), RestartFires(Started)),
                       Failures(s, now))
  {
    var g := s.generation;
    CrashArmsRestart(s, detail, now);
    RestartTimerLaunches(Step(Step(s, ChildDies(g)), ExitCallback(g, detail, now, Started)), Started);
  }

  /** A child that dies within the budget is replaced. */
  lemma CrashIsFollowedByLaunch(s: State, detail: string, now: int)
    requires Inv(s) && BudgetInv(s) && !s.stopping && s.generation in s.world.alive && Failures(s, now) < 5
    ensures var g := s.generation;
            FreshChild(s, Run(s, [ChildDies(g), ExitCallback(g, detail, now, Started), RestartFires(Started)]), Failures(s, now))
  {
    var g := s.generation;
    CrashIsReplaced(s, detail, now);
    RunOfThree(s, ChildDies(g), ExitCallback(g, detail, now, Started), RestartFires(Started));
  }

  /** The delay doubles with every failure, from 0.4 seconds up to eight. */
  lemma BackoffDoubles(n: nat)
    requires n >= 1
    ensures BackoffDelay(0) == BackoffDelay(1) == 0.4
    ensures BackoffDelay(n + 1) == if 2.0 * BackoffDelay(n) < 8.0 then 2.0 * BackoffDelay(n) else 8.0
  {
    assert Pow2(n) == 2 * Pow2(n - 1);
  }

  // ----- Readiness -----

  /** A ready line in time publishes the server, calls the watchdog off, and starts the healthy run. */
  lemma ReadyIsPublished(s: State, endpoint: string, now: int)
    requires Inv(s) && s.process.Some?
    ensures var t := Step(s, ReadyLine(s.generation, endpoint, now));
            && t.status == Running(endpoint) && t.process == s.process && t.world.alive == s.world.alive
            && t.readyAt == Some(now) && t.note.None? && t.watchdog.None?
            && (s.watchdog.Some? ==> t.world.watchdogs == s.world.watchdogs - {s.watchdog.value})
            && t.failures == s.failures && t.stopping == s.stopping && t.world.signals == s.world.signals
  {
  }

  /** Only a run of thirty seconds after the ready line makes the next failure the first one again. */
  lemma HealthyRunForgives(s: State, endpoint: string, ready: int, died: int, detail: string, outcome: Outcome)
    requires Inv(s) && BudgetInv(s) && !s.stopping && s.generation in s.world.alive
    ensures var g := s.generation;
            Run(s, [ReadyLine(g, endpoint, ready), ChildDies(g), ExitCallback(g, detail, died, outcome)]).failures
            == if died - ready >= 30 then 1 else s.failures + 1
  {
    var g := s.generation;
    RunOfThree(s, ReadyLine(g, endpoint, ready), ChildDies(g), ExitCallback(g, detail, died, outcome));
    ReadyIsPublished(s, endpoint, ready);
    var t := Step(s, ReadyLine(g, endpoint, ready));
    StepKeepsInv(s, ReadyLine(g, endpoint, ready));
    StepKeepsBudget(s, ReadyLine(g, endpoint, ready));
    StepKeepsInv(t, ChildDies(g));
    StepKeepsBudget(t, ChildDies(g));
    CrashIsAnswered(Step(t, ChildDies(g)), detail, died, outcome);
  }

  /** A child that has not answered when its watchdog fires is asked to stop, and the reason is kept. */
  lemma SilenceIsTerminated(s: State)
    requires Inv(s) && s.generation in s.world.alive && s.generation in s.world.watchdogs && !s.status.Running?
    ensures var g := s.generation;
            var t := Step(s, WatchdogFires(g));
            && t.note == Some("did not print its ready line in time")
            && t.world.signals == s.world.signals + [Signal(Term, g, g, true)]
            && KillTask(g, g) in t.world.killTasks && g !in t.world.watchdogs
            && t.process == s.process && t.failures == s.failures && t.stopping == s.stopping
  {
  }

  /** A starting child is being watched, has been timed out, or is being stopped. */
  predicate IsWatched(s: State) {
    s.status.Starting? ==> s.stopping || s.note.Some? || s.generation in s.world.watchdogs
  }

  lemma StepKeepsWatch(s: State, e: Event)
    requires Inv(s) && IsWatched(s) && Supervised(e)
    ensures IsWatched(Step(s, e))
  {
  }

  /** No child stays in its starting phase unwatched, in any supervised run. */
  lemma {:induction false} StartingIsWatched(s: State, events: seq<Event>)
    requires Inv(s) && IsWatched(s) && forall e :: e in events ==> Supervised(e)
    ensures IsWatched(Run(s, events))
    decreases |events|
  {
    if events != [] {
      assert events[0] in events;
      StepKeepsWatch(s, events[0]);
      StepKeepsInv(s, events[0]);
      StartingIsWatched(Step(s, events[0]), events[1..]);
    }
  }

  /** A watchdog that fires on a running server lets it run. */
  lemma WatchdogSparesRunning(s: State)
    requires s.status.Running? && s.generation in s.world.watchdogs
    ensures var t := Step(s, WatchdogFires(s.generation));
            t == s.(world := s.world.(watchdogs := s.world.watchdogs - {s.generation}))
  {
  }

  // ----- Callbacks -----

  /** What must be pending for the event to happen. */
  predicate CanHappen(s: State, e: Event) {
    match e
    case ChildDies(gen) => gen in s.world.alive
    case ExitCallback(gen, _, _, _) => gen in s.world.exits
    case WatchdogFires(gen) => gen in s.world.watchdogs
    case RestartFires(_) => s.restartArmed
    case KillFires(task) => task in s.world.killTasks
    case _ => true
  }

  /** What cannot happen does nothing; what does is used up, once. */
  lemma CallbacksAreUsedUp(s: State, e: Event)
    ensures !CanHappen(s, e) ==> Step(s, e) == s
    ensures e.ChildDies? && CanHappen(s, e) ==>
              Step(s, e).world.alive == s.world.alive - {e.gen} && Step(s, e).world.exits == s.world.exits + {e.gen}
    ensures e.ExitCallback? && CanHappen(s, e) ==> Step(s, e).world.exits == s.world.exits - {e.gen}
    ensures e.WatchdogFires? && CanHappen(s, e) ==> e.gen !in Step(s, e).world.watchdogs
    ensures e.KillFires? && CanHappen(s, e) ==> Step(s, e).world.killTasks == s.world.killTasks - multiset{e.task}
    ensures e.RestartFires? ==> !Step(s, e).restartArmed
  {
  }
}
