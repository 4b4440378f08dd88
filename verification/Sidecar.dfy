/**
 * The supervisor of the bundled server process. Its methods and callbacks all
 * run on one actor, so a run is an interleaving of events: user commands, the
 * child dying, late callbacks, and timers.
 */
module Sidecar {
  import opened Common

  const MAX_CONSECUTIVE_FAILURES := 5
  const HEALTHY_RUNTIME := 30
  const TIMEOUT_NOTE := "did not print its ready line in time"

  datatype Failure = LaunchFailed(message: string) | ExitedRepeatedly(attempts: nat, detail: string)

  datatype Status =
    | Idle
    | Starting(attempt: nat)
    | Running(endpoint: string)
    | Restarting(nextAttempt: nat, delay: real, reason: string)
    | Failed(failure: Failure)

  /** How a launch goes: the specification does not resolve, the process does not start, or it does. */
  datatype Outcome = Started | ResolveFailed(message: string) | RunFailed(message: string)

  datatype SignalKind = Term | Kill

  /** A signal to the child of generation `target`, decided under generation `armed`. */
  datatype Signal = Signal(kind: SignalKind, armed: nat, target: nat, targetAlive: bool)

  /** A delayed SIGKILL, with what it captured when it was armed. */
  datatype KillTask = KillTask(gen: nat, pid: nat)

  /** What surrounds the controller. A child is named by the generation that launched it. */
  datatype World = World(
    alive: set<nat>,          // children that are running
    exits: set<nat>,          // dead children whose exit callback has not run
    watchdogs: set<nat>,      // watchdog tasks neither fired nor cancelled
    killTasks: multiset<KillTask>,
    signals: seq<Signal>,
    launches: nat,            // calls of launch() so far
    launchesAtReset: nat)     // ... when the failure budget was last reset

  /** The controller's fields, and the world. */
  datatype State = State(
    status: Status,
    process: Option<nat>,
    generation: nat,
    failures: nat,
    readyAt: Option<int>,
    note: Option<string>,
    stopping: bool,
    relaunchAfterStop: bool,
    restartArmed: bool,
    watchdog: Option<nat>,
    world: World)

  datatype Event =
    | Start(outcome: Outcome)
    | RestartNow(outcome: Outcome)
    | StopBlocking(obeys: bool)
    | ChildDies(gen: nat)
    | ExitCallback(gen: nat, detail: string, now: int, outcome: Outcome)
    | ReadyLine(gen: nat, endpoint: string, now: int)
    | WatchdogFires(gen: nat)
    | RestartFires(outcome: Outcome)
    | KillFires(task: KillTask)

  function Pow2(n: nat): nat { if n == 0 then 1 else 2 * Pow2(n - 1) }

  function BackoffDelay(attempt: nat): real {
    var delay := 0.4 * (Pow2(if attempt > 1 then attempt - 1 else 0) as real);
    if delay < 8.0 then delay else 8.0
  }

  lemma {:induction false} Pow2Mono(m: nat, n: nat)
    requires m <= n
    ensures Pow2(m) <= Pow2(n)
    decreases n
  {
    if m < n { Pow2Mono(m, n - 1); }
  }

  /** Restarts never come sooner after more failures, and wait at most eight seconds. */
  lemma BackoffGrows(a: nat, b: nat)
    requires a <= b
    ensures 0.4 <= BackoffDelay(a) <= BackoffDelay(b) <= 8.0
  {
    var m, n := if a > 1 then a - 1 else 0, if b > 1 then b - 1 else 0;
    Pow2Mono(m, n);
    Pow2Mono(0, m);
  }

  // ----- What each method does -----

  function Launched(s: State, outcome: Outcome): State {
    var w := s.world.(launches := s.world.launches + 1);
    match outcome
    case ResolveFailed(message) => s.(status := Failed(LaunchFailed(message)), world := w)
    case RunFailed(message) =>
      s.(generation := s.generation + 1, readyAt := None, status := Failed(LaunchFailed(message)), world := w)
    case Started =>
      var g := s.generation + 1;
      s.(generation := g, readyAt := None, process := Some(g), status := Starting(s.failures + 1), watchdog := Some(g),
         world := w.(alive := w.alive + {g}, watchdogs := w.watchdogs + {g}))
  }

  function WatchdogCancelled(s: State): State {
    if s.watchdog.None? then s
    else s.(watchdog := None, world := s.world.(watchdogs := s.world.watchdogs - {s.watchdog.value}))
  }

  function PendingCancelled(s: State): State { WatchdogCancelled(s.(restartArmed := false)) }

  predicate IsRunning(s: State) { s.process.Some? && s.process.value in s.world.alive }

  function Signalled(w: World, kind: SignalKind, armed: nat, target: nat): World {
    w.(signals := w.signals + [Signal(kind, armed, target, target in w.alive)])
  }

  /** The child is asked to stop, and a delayed SIGKILL is armed. */
  function Terminating(s: State): State {
    if !IsRunning(s) then s
    else
      var task := KillTask(s.generation, s.process.value);
      var w := Signalled(s.world, Term, task.gen, task.pid);
      s.(world := w.(killTasks := w.killTasks + multiset{task}))
  }

  function TornDown(s: State): State { s.(process := None, readyAt := None) }

  function BudgetReset(s: State): State {
    s.(failures := 0, world := s.world.(launchesAtReset := s.world.launches))
  }

  function Ready(s: State, endpoint: string, now: int): State {
    WatchdogCancelled(s).(readyAt := Some(now), note := None, status := Running(endpoint))
  }

  predicate RanHealthily(s: State, now: int) { s.readyAt.Some? && now - s.readyAt.value >= HEALTHY_RUNTIME }

  /** An exit that was not asked for: it counts, and is retried until the budget is spent. */
  function Crashed(s: State, detail: string, healthy: bool): State {
    var t := if healthy then BudgetReset(s) else s;
    var failures := t.failures + 1;
    var reason := if s.note.Some? then s.note.value else detail;
    if failures < MAX_CONSECUTIVE_FAILURES then
      t.(failures := failures, note := None, restartArmed := true,
         status := Restarting(failures + 1, BackoffDelay(failures), reason))
    else
      t.(failures := failures, note := None, status := Failed(ExitedRepeatedly(failures, reason)))
  }

  /** An exit while stopping. */
  function StopFinished(s: State, outcome: Outcome): State {
    if s.relaunchAfterStop then Launched(s.(relaunchAfterStop := false, stopping := false), outcome)
    else s.(status := Idle)
  }

  function Exited(s: State, gen: nat, detail: string, now: int, outcome: Outcome): State {
    if gen != s.generation then s
    else
      var t := TornDown(PendingCancelled(s));
      if s.stopping then StopFinished(t, outcome) else Crashed(t, detail, RanHealthily(s, now))
  }

  function StartedUp(s: State, outcome: Outcome): State {
    if s.process.Some? then s
    else Launched(BudgetReset(s.(stopping := false, relaunchAfterStop := false)), outcome)
  }

  function Restarted(s: State, outcome: Outcome): State {
    var t := BudgetReset(PendingCancelled(s)).(note := None);
    if t.process.None? then Launched(t.(stopping := false), outcome)
    else Terminating(t.(stopping := true, relaunchAfterStop := true))
  }

  /** The child is waited for; if it does not obey in time it is killed. */
  function WaitedFor(w: World, gen: nat, target: nat, obeys: bool): World {
    var v := Signalled(w, Term, gen, target);
    var u := if obeys then v else Signalled(v, Kill, gen, target);
    u.(alive := u.alive - {target}, exits := u.exits + {target})
  }

  function Stopped(s: State, obeys: bool): State {
    var t := PendingCancelled(s.(stopping := true, relaunchAfterStop := false));
    var u := if IsRunning(t) then t.(world := WaitedFor(t.world, t.generation, t.process.value, obeys)) else t;
    TornDown(u).(status := Idle)
  }

  function WatchdogFired(s: State, gen: nat): State {
    if s.generation == gen && !s.status.Running? then Terminating(s.(note := Some(TIMEOUT_NOTE))) else s
  }

  function KillFired(s: State, task: KillTask): State {
    if s.generation == task.gen && IsRunning(s) then s.(world := Signalled(s.world, Kill, task.gen, task.pid)) else s
  }

  /** One event. Events that cannot happen (a timer that is not armed, a callback not pending) do nothing. */
  function Step(s: State, e: Event): State {
    var w := s.world;
    match e
    case Start(outcome) => StartedUp(s, outcome)
    case RestartNow(outcome) => Restarted(s, outcome)
    case StopBlocking(obeys) => Stopped(s, obeys)
    case ChildDies(gen) =>
      if gen in w.alive then s.(world := w.(alive := w.alive - {gen}, exits := w.exits + {gen})) else s
    case ExitCallback(gen, detail, now, outcome) =>
      if gen in w.exits then Exited(s.(world := w.(exits := w.exits - {gen})), gen, detail, now, outcome) else s
    case ReadyLine(gen, endpoint, now) => if gen == s.generation then Ready(s, endpoint, now) else s
    case WatchdogFires(gen) =>
      if gen in w.watchdogs then WatchdogFired(s.(world := w.(watchdogs := w.watchdogs - {gen})), gen) else s
    case RestartFires(outcome) => if s.restartArmed then Launched(s.(restartArmed := false), outcome) else s
    case KillFires(task) =>
      if task in w.killTasks then KillFired(s.(world := w.(killTasks := w.killTasks - multiset{task})), task) else s
  }

  const INITIAL := State(Idle, None, 0, 0, None, None, false, false, false, None, World({}, {}, {}, multiset{}, [], 0, 0))

  // ----- The controller itself -----

  class SidecarController {
    var status: Status
    var process: Option<nat>
    var generation: nat
    var consecutiveFailures: nat
    var readyAt: Option<int>
    var pendingFailureNote: Option<string>
    var stopping: bool
    var relaunchAfterStop: bool
    var restartArmed: bool
    var readyWatchdog: Option<nat>
    var world: World

    function View(): State
      reads this
    {
      State(status, process, generation, consecutiveFailures, readyAt, pendingFailureNote, stopping, relaunchAfterStop,
            restartArmed, readyWatchdog, world)
    }

    constructor ()
      ensures View() == INITIAL
    {
      status, process, generation, consecutiveFailures := Idle, None, 0, 0;
      readyAt, pendingFailureNote, stopping, relaunchAfterStop := None, None, false, false;
      restartArmed, readyWatchdog := false, None;
      world := World({}, {}, {}, multiset{}, [], 0, 0);
    }

    method Start(outcome: Outcome)
      modifies this
      ensures View() == StartedUp(old(View()), outcome)
    {
      if process.Some? { return; }
      stopping := false;
      relaunchAfterStop := false;
      ResetBudget();
      Launch(outcome);
    }

    method RestartNow(outcome: Outcome)
      modifies this
      ensures View() == Restarted(old(View()), outcome)
    {
      CancelPendingWork();
      ResetBudget();
      pendingFailureNote := None;
      if process.None? {
        stopping := false;
        Launch(outcome);
        return;
      }
      stopping := true;
      relaunchAfterStop := true;
      BeginTermination();
    }

    method StopBlocking(obeys: bool)
      modifies this
      ensures View() == Stopped(old(View()), obeys)
    {
      stopping := true;
      relaunchAfterStop := false;
      CancelPendingWork();
      if process.Some? && process.value in world.alive {
        world := WaitedFor(world, generation, process.value, obeys);
      }
      TeardownProcess();
      status := Idle;
    }

    method Launch(outcome: Outcome)
      modifies this
      ensures View() == Launched(old(View()), outcome)
    {
      world := world.(launches := world.launches + 1);
      if outcome.ResolveFailed? {
        status := Failed(LaunchFailed(outcome.message));
        return;
      }
      generation := generation + 1;
      readyAt := None;
      if outcome.RunFailed? {
        status := Failed(LaunchFailed(outcome.message));
        return;
      }
      process := Some(generation);
      status := Starting(consecutiveFailures + 1);
      readyWatchdog := Some(generation);
      world := world.(alive := world.alive + {generation}, watchdogs := world.watchdogs + {generation});
    }

    method HandleReadyLine(gen: nat, endpoint: string, now: int)
      modifies this
      ensures View() == if gen == old(generation) then Ready(old(View()), endpoint, now) else old(View())
    {
      if gen != generation { return; }
      CancelWatchdog();
      readyAt := Some(now);
      pendingFailureNote := None;
      status := Running(endpoint);
    }

    method HandleExit(gen: nat, detail: string, now: int, outcome: Outcome)
      modifies this
      ensures View() == Exited(old(View()), gen, detail, now, outcome)
    {
      if gen != generation { return; }
      CancelPendingWork();
      var ranHealthily := readyAt.Some? && now - readyAt.value >= HEALTHY_RUNTIME;
      TeardownProcess();
      if stopping {
        if relaunchAfterStop {
          relaunchAfterStop := false;
          stopping := false;
          Launch(outcome);
        } else {
          status := Idle;
        }
        return;
      }
      CountFailure(detail, ranHealthily);
    }

    /** The rest of `handleExit`, for an exit nobody asked for. */
    method CountFailure(detail: string, ranHealthily: bool)
      modifies this
      ensures View() == Crashed(old(View()), detail, ranHealthily)
    {
      if ranHealthily {
        ResetBudget();
      }
      consecutiveFailures := consecutiveFailures + 1;
      var reason := if pendingFailureNote.Some? then pendingFailureNote.value else detail;
      pendingFailureNote := None;
      if consecutiveFailures >= MAX_CONSECUTIVE_FAILURES {
        status := Failed(ExitedRepeatedly(consecutiveFailures, reason));
        return;
      }
      status := Restarting(consecutiveFailures + 1, BackoffDelay(consecutiveFailures), reason);
      restartArmed := true;
    }

    method OnWatchdog(gen: nat)
      modifies this
      ensures View() == WatchdogFired(old(View()), gen)
    {
      if generation != gen || status.Running? { return; }
      pendingFailureNote := Some(TIMEOUT_NOTE);
      BeginTermination();
    }

    method OnRestartTimer(outcome: Outcome)
      requires restartArmed
      modifies this
      ensures View() == Launched(old(View()).(restartArmed := false), outcome)
    {
      restartArmed := false;
      Launch(outcome);
    }

    method OnKillTimer(task: KillTask)
      modifies this
      ensures View() == KillFired(old(View()), task)
    {
      if generation == task.gen && process.Some? && process.value in world.alive {
        world := Signalled(world, Kill, task.gen, task.pid);
      }
    }

    method BeginTermination()
      modifies this
      ensures View() == Terminating(old(View()))
    {
      if process.None? || process.value !in world.alive { return; }
      var task := KillTask(generation, process.value);
      world := Signalled(world, Term, generation, process.value);
      world := world.(killTasks := world.killTasks + multiset{task});
    }

    method TeardownProcess()
      modifies this`process, this`readyAt
      ensures process == None && readyAt == None
    {
      process, readyAt := None, None;
    }

    method ResetBudget()
      modifies this`consecutiveFailures, this`world
      ensures View() == BudgetReset(old(View()))
    {
      consecutiveFailures := 0;
      world := world.(launchesAtReset := world.launches);
    }

    method CancelWatchdog()
      modifies this`readyWatchdog, this`world
      ensures View() == WatchdogCancelled(old(View()))
    {
      if readyWatchdog.Some? {
        world := world.(watchdogs := world.watchdogs - {readyWatchdog.value});
      }
      readyWatchdog := None;
    }

    method CancelPendingWork()
      modifies this`restartArmed, this`readyWatchdog, this`world
      ensures View() == PendingCancelled(old(View()))
    {
      restartArmed := false;
      CancelWatchdog();
    }
  }

  // ----- Safety over every run -----

  predicate GoodSignal(x: Signal) { x.armed == x.target && x.targetAlive }

  /** What holds of the world, given the generation. */
  ghost predicate WorldInv(w: World, generation: nat) {
    && (forall g :: g in w.exits ==> g <= generation && g !in w.alive)
    && (forall t :: t in w.killTasks ==> t.gen == t.pid && t.gen <= generation)
    && (forall x :: x in w.signals ==> GoodSignal(x))
  }

  /** What holds between events, before `stopBlocking`. */
  ghost predicate Inv(s: State) {
    && WorldInv(s.world, s.generation)
    && (forall g :: g in s.world.alive ==> s.process == Some(g))
    && (s.process.Some? ==> s.process.value == s.generation && (s.generation in s.world.alive || s.generation in s.world.exits))
    && (s.process.None? ==> !s.stopping && s.generation !in s.world.exits)
    && (s.restartArmed ==> s.process.None?)
    && s.relaunchAfterStop == s.stopping
    && (s.status.Restarting? ==> s.restartArmed)
    && (s.status.Starting? ==> s.process.Some?)
  }

  function SinceReset(s: State): int { s.world.launches - s.world.launchesAtReset }

  /** The launches since the failure budget was last reset are covered by counted failures. */
  predicate BudgetInv(s: State) {
    && 0 <= SinceReset(s) <= MAX_CONSECUTIVE_FAILURES
    && (s.restartArmed || s.stopping ==> SinceReset(s) <= s.failures < MAX_CONSECUTIVE_FAILURES)
    && (s.process.Some? ==> SinceReset(s) <= s.failures + 1 <= MAX_CONSECUTIVE_FAILURES)
  }

  /** An event of a supervised run after the one `start`. */
  predicate Supervised(e: Event) { !e.Start? && !e.StopBlocking? }

  /** Nothing is running, held, pending or being stopped: the state in which a launch is safe. */
  ghost predicate Quiet(s: State) {
    && WorldInv(s.world, s.generation) && s.world.alive == {} && s.process.None? && s.generation !in s.world.exits
    && !s.stopping && !s.relaunchAfterStop && !s.restartArmed
  }

  lemma LaunchKeepsInv(s: State, outcome: Outcome)
    requires Quiet(s)
    ensures Inv(Launched(s, outcome))
  {
  }

  lemma CrashKeepsInv(s: State, detail: string, healthy: bool)
    requires Quiet(s)
    ensures Inv(Crashed(s, detail, healthy))
  {
  }

  lemma TerminatingKeepsInv(s: State)
    requires Inv(s)
    ensures Inv(Terminating(s))
  {
  }

  lemma RestartKeepsInv(s: State, outcome: Outcome)
    requires Inv(s)
    ensures Inv(Restarted(s, outcome))
  {
    var t := BudgetReset(PendingCancelled(s)).(note := None);
    if s.process.None? {
      LaunchKeepsInv(t.(stopping := false), outcome);
    } else {
      var u := t.(stopping := true, relaunchAfterStop := true);
      assert WorldInv(u.world, u.generation) && u.world.alive == s.world.alive && u.world.exits == s.world.exits;
      if s.status.Restarting? {
        assert false;
      }
      TerminatingKeepsInv(u);
    }
  }

  lemma ExitKeepsInv(s: State, gen: nat, detail: string, now: int, outcome: Outcome)
    requires Inv(s) && gen in s.world.exits
    ensures Inv(Exited(s.(world := s.world.(exits := s.world.exits - {gen})), gen, detail, now, outcome))
  {
    var r := s.(world := s.world.(exits := s.world.exits - {gen}));
    if gen == s.generation {
      var t := TornDown(PendingCancelled(r));
      if s.stopping {
        LaunchKeepsInv(t.(relaunchAfterStop := false, stopping := false), outcome);
      } else {
        CrashKeepsInv(t, detail, RanHealthily(r, now));
      }
    }
  }

  lemma DeathKeepsInv(s: State, gen: nat)
    requires Inv(s)
    ensures Inv(Step(s, ChildDies(gen)))
  {
  }

  lemma ReadyKeepsInv(s: State, endpoint: string, now: int)
    requires Inv(s)
    ensures Inv(Ready(s, endpoint, now))
  {
  }

  lemma KillKeepsInv(s: State, task: KillTask)
    requires Inv(s) && task in s.world.killTasks
    ensures Inv(Step(s, KillFires(task)))
  {
    var w := s.world;
    var t := s.(world := w.(killTasks := w.killTasks - multiset{task}));
    assert WorldInv(t.world, t.generation);
  }

  lemma WatchdogKeepsInv(s: State, gen: nat)
    requires Inv(s)
    ensures Inv(Step(s, WatchdogFires(gen)))
  {
    TerminatingKeepsInv(s.(note := Some(TIMEOUT_NOTE), world := s.world.(watchdogs := s.world.watchdogs - {gen})));
  }

  lemma StepKeepsInv(s: State, e: Event)
    requires Inv(s) && Supervised(e)
    ensures Inv(Step(s, e))
  {
    var w := s.world;
    match e
    case RestartNow(outcome) => RestartKeepsInv(s, outcome);
    case ChildDies(gen) => DeathKeepsInv(s, gen);
    case ExitCallback(gen, detail, now, outcome) =>
      if gen in w.exits { ExitKeepsInv(s, gen, detail, now, outcome); }
    case ReadyLine(gen, endpoint, now) => ReadyKeepsInv(s, endpoint, now);
    case WatchdogFires(gen) => WatchdogKeepsInv(s, gen);
    case RestartFires(outcome) =>
      if s.restartArmed { LaunchKeepsInv(s.(restartArmed := false), outcome); }
    case KillFires(task) =>
      if task in w.killTasks { KillKeepsInv(s, task); }
  }

  lemma LaunchKeepsBudget(s: State, outcome: Outcome)
    requires s.process.None? && !s.restartArmed && !s.stopping && 0 <= SinceReset(s) <= s.failures < MAX_CONSECUTIVE_FAILURES
    ensures BudgetInv(Launched(s, outcome))
  {
  }

  lemma CrashKeepsBudget(s: State, detail: string, healthy: bool)
    requires s.process.None? && !s.restartArmed && !s.stopping && 0 <= SinceReset(s) <= s.failures + 1 <= MAX_CONSECUTIVE_FAILURES
    ensures BudgetInv(Crashed(s, detail, healthy))
  {
  }

  lemma ExitKeepsBudget(s: State, gen: nat, detail: string, now: int, outcome: Outcome)
    requires Inv(s) && BudgetInv(s) && gen in s.world.exits
    ensures BudgetInv(Exited(s.(world := s.world.(exits := s.world.exits - {gen})), gen, detail, now, outcome))
  {
    var r := s.(world := s.world.(exits := s.world.exits - {gen}));
    if gen == s.generation {
      var t := TornDown(PendingCancelled(r));
      if s.stopping {
        LaunchKeepsBudget(t.(relaunchAfterStop := false, stopping := false), outcome);
      } else {
        CrashKeepsBudget(t, detail, RanHealthily(r, now));
      }
    }
  }

  lemma RestartKeepsBudget(s: State, outcome: Outcome)
    requires Inv(s) && BudgetInv(s)
    ensures BudgetInv(Restarted(s, outcome))
  {
    if s.process.None? {
      LaunchKeepsBudget(BudgetReset(PendingCancelled(s)).(note := None, stopping := false), outcome);
    }
  }

  lemma StepKeepsBudget(s: State, e: Event)
    requires Inv(s) && BudgetInv(s) && Supervised(e)
    ensures BudgetInv(Step(s, e))
  {
    match e
    case RestartNow(outcome) => RestartKeepsBudget(s, outcome);
    case ExitCallback(gen, detail, now, outcome) =>
      if gen in s.world.exits { ExitKeepsBudget(s, gen, detail, now, outcome); }
    case RestartFires(outcome) =>
      if s.restartArmed { LaunchKeepsBudget(s.(restartArmed := false), outcome); }
    case _ =>
  }

  function Run(s: State, events: seq<Event>): State
    decreases |events|
  {
    if events == [] then s else Run(Step(s, events[0]), events[1..])
  }

  lemma {:induction false} RunKeepsInv(s: State, events: seq<Event>)
    requires Inv(s) && BudgetInv(s) && forall e :: e in events ==> Supervised(e)
    ensures Inv(Run(s, events)) && BudgetInv(Run(s, events))
    decreases |events|
  {
    if events != [] {
      StepKeepsInv(s, events[0]);
      StepKeepsBudget(s, events[0]);
      RunKeepsInv(Step(s, events[0]), events[1..]);
    }
  }

  function FromStart(outcome: Outcome, events: seq<Event>): State { Run(StartedUp(INITIAL, outcome), events) }

  lemma InvMeansOneChild(s: State)
    requires Inv(s)
    ensures |s.world.alive| <= 1
    ensures forall g :: g in s.world.alive ==> g == s.generation && s.process == Some(g)
    ensures forall x :: x in s.world.signals ==> GoodSignal(x)
  {
    if s.world.alive != {} {
      assert s.world.alive == {s.generation};
    }
  }

  /**
   * In every interleaving after one `start`: at most one child is alive, it is
   * the one the controller holds, and every signal went to the live child of
   * the generation it was decided under.
   */
  lemma AtMostOneChild(outcome: Outcome, events: seq<Event>)
    requires forall e :: e in events ==> Supervised(e)
    ensures var s := FromStart(outcome, events);
            && |s.world.alive| <= 1
            && (forall g :: g in s.world.alive ==> g == s.generation && s.process == Some(g))
            && (forall x :: x in s.world.signals ==> GoodSignal(x))
  {
    LaunchKeepsInv(INITIAL, outcome);
    RunKeepsInv(StartedUp(INITIAL, outcome), events);
    InvMeansOneChild(FromStart(outcome, events));
  }

  /** The controller never waits for nothing while it says it is starting or about to restart. */
  lemma NeverStuckStarting(outcome: Outcome, events: seq<Event>)
    requires forall e :: e in events ==> Supervised(e)
    ensures var s := FromStart(outcome, events);
            && (s.status.Restarting? ==> s.restartArmed)
            && (s.status.Starting? ==> s.generation in s.world.alive || s.generation in s.world.exits)
  {
    LaunchKeepsInv(INITIAL, outcome);
    RunKeepsInv(StartedUp(INITIAL, outcome), events);
  }

  /** The event gives the failure budget back. */
  predicate Resets(s: State, e: Event) {
    || e.RestartNow?
    || (e.ExitCallback? && e.gen in s.world.exits && e.gen == s.generation && !s.stopping && RanHealthily(s, e.now))
  }

  predicate RunResets(s: State, events: seq<Event>)
    decreases |events|
  {
    events != [] && (Resets(s, events[0]) || RunResets(Step(s, events[0]), events[1..]))
  }

  lemma StepWithoutReset(s: State, e: Event)
    requires Supervised(e) && !Resets(s, e)
    ensures Step(s, e).world.launchesAtReset == s.world.launchesAtReset
  {
  }

  lemma {:induction false} ResetsAreTheOnlyOnes(s: State, events: seq<Event>)
    requires (forall e :: e in events ==> Supervised(e)) && !RunResets(s, events)
    ensures Run(s, events).world.launchesAtReset == s.world.launchesAtReset
    decreases |events|
  {
    if events != [] {
      assert events[0] in events;
      StepWithoutReset(s, events[0]);
      ResetsAreTheOnlyOnes(Step(s, events[0]), events[1..]);
    }
  }

  /** Without a user restart or a healthy run, no more than five launches ever happen. */
  lemma AtMostFiveLaunches(outcome: Outcome, events: seq<Event>)
    requires forall e :: e in events ==> Supervised(e)
    requires !RunResets(StartedUp(INITIAL, outcome), events)
    ensures FromStart(outcome, events).world.launches <= MAX_CONSECUTIVE_FAILURES
  {
    LaunchKeepsInv(INITIAL, outcome);
    RunKeepsInv(StartedUp(INITIAL, outcome), events);
    ResetsAreTheOnlyOnes(StartedUp(INITIAL, outcome), events);
  }

  /** ... and between any two resets, in a run with any number of them. */
  lemma LaunchesBetweenResets(outcome: Outcome, events: seq<Event>)
    requires forall e :: e in events ==> Supervised(e)
    ensures SinceReset(FromStart(outcome, events)) <= MAX_CONSECUTIVE_FAILURES
  {
    LaunchKeepsInv(INITIAL, outcome);
    RunKeepsInv(StartedUp(INITIAL, outcome), events);
  }

  /** A callback armed under another generation is consumed and does nothing else. */
  lemma StaleCallbackDoesNothing(s: State, e: Event)
    requires e.ExitCallback? || e.ReadyLine? || e.WatchdogFires? || e.KillFires?
    requires (if e.KillFires? then e.task.gen else e.gen) != s.generation
    ensures var t := Step(s, e);
            t.(world := t.world.(exits := s.world.exits, watchdogs := s.world.watchdogs, killTasks := s.world.killTasks)) == s
  {
  }

  /** After `stopBlocking` there is no child, and without a new command there never is one again. */
  lemma StoppedHasNoChild(s: State, obeys: bool)
    requires Inv(s)
    ensures StoppedInv(Stopped(s, obeys)) && forall x :: x in Stopped(s, obeys).world.signals ==> GoodSignal(x)
  {
  }

  predicate StoppedInv(s: State) {
    s.world.alive == {} && s.process.None? && s.stopping && !s.relaunchAfterStop && !s.restartArmed
  }

  lemma {:induction false} StopIsTerminal(s: State, events: seq<Event>)
    requires StoppedInv(s) && forall e :: e in events ==> !e.Start? && !e.RestartNow?
    ensures StoppedInv(Run(s, events)) && Run(s, events).world.launches == s.world.launches
    decreases |events|
  {
    if events != [] {
      var e := events[0];
      assert e in events;
      assert StoppedInv(Step(s, e)) && Step(s, e).world.launches == s.world.launches;
      StopIsTerminal(Step(s, e), events[1..]);
    }
  }

  // ----- Where the guarantees end -----

  /** What a caller can check: no `start` while a restart is pending. */
  predicate Safe(s: State, e: Event) { !e.StopBlocking? && (e.Start? ==> s.process.Some? || !s.restartArmed) }

  predicate SafeRun(s: State, events: seq<Event>)
    decreases |events|
  {
    events == [] || (Safe(s, events[0]) && SafeRun(Step(s, events[0]), events[1..]))
  }

  lemma SafeStepKeepsInv(s: State, e: Event)
    requires Inv(s) && BudgetInv(s) && Safe(s, e)
    ensures Inv(Step(s, e)) && BudgetInv(Step(s, e))
  {
    if e.Start? {
      if s.process.None? {
        LaunchKeepsInv(BudgetReset(s.(stopping := false, relaunchAfterStop := false)), e.outcome);
      }
    } else {
      StepKeepsInv(s, e);
      StepKeepsBudget(s, e);
    }
  }

  /** With any number of further `start` calls, none of them while a restart is pending, all the same holds. */
  lemma {:induction false} AtMostOneChildWithStarts(s: State, events: seq<Event>)
    requires Inv(s) && BudgetInv(s) && SafeRun(s, events)
    ensures var t := Run(s, events);
            && |t.world.alive| <= 1 && (forall x :: x in t.world.signals ==> GoodSignal(x))
            && SinceReset(t) <= MAX_CONSECUTIVE_FAILURES
    decreases |events|
  {
    if events == [] {
      InvMeansOneChild(s);
    } else {
      SafeStepKeepsInv(s, events[0]);
      AtMostOneChildWithStarts(Step(s, events[0]), events[1..]);
    }
  }

  // ----- A further start -----

  /** What the supervisor is for: one child at most, and five launches at most between resets of the budget. */
  predicate KeepsItsWord(s: State) { |s.world.alive| <= 1 && SinceReset(s) <= MAX_CONSECUTIVE_FAILURES }

  lemma RunOfTwo(s: State, a: Event, b: Event)
    ensures Run(s, [a, b]) == Step(Step(s, a), b)
  {
    assert [a, b][1..] == [b] && [b][1..] == [];
    assert Run(s, [a, b]) == Run(Step(s, a), [b]);
    assert Run(Step(s, a), [b]) == Run(Step(Step(s, a), b), []);
  }

  lemma RunCons(s: State, e: Event, rest: seq<Event>)
    ensures Run(s, [e] + rest) == Run(Step(s, e), rest)
  {
    assert ([e] + rest)[1..] == rest;
  }

  lemma {:induction false} RunAppend(s: State, a: seq<Event>, b: seq<Event>)
    ensures Run(s, a + b) == Run(Run(s, a), b)
    decreases |a|
  {
    if a == [] {
      assert a + b == b;
    } else {
      assert (a + b)[1..] == a[1..] + b;
      RunAppend(Step(s, a[0]), a[1..], b);
    }
  }

  lemma StartedDuringRestart(s: State)
    requires Inv(s) && s.process.None? && s.restartArmed
    ensures var t := Step(s, Start(Started));
            && t.world.alive == {s.generation + 1} && t.generation == s.generation + 1 && t.restartArmed
            && Step(t, RestartFires(Started)).world.alive == t.world.alive + {s.generation + 2}
  {
    assert s.world.alive == {};
  }

  /** A child started while a restart is pending is joined by a second one when the timer fires. */
  lemma StartDuringRestartDoubles(s: State)
    requires Inv(s) && s.process.None? && s.restartArmed
    ensures var t := Run(s, [Start(Started), RestartFires(Started)]);
            t.world.alive == {s.generation + 1, s.generation + 2} && |t.world.alive| == 2
  {
    RunOfTwo(s, Start(Started), RestartFires(Started));
    StartedDuringRestart(s);
    TwoIds(s.generation + 1, s.generation + 2);
  }

  lemma TwoIds(g: nat, h: nat)
    requires g != h
    ensures |{g, h}| == 2
  {
  }

  /** Such a state is reached: the child dies, its restart is armed, and a second `start` comes first. */
  lemma SecondStartBreaksIt() returns (events: seq<Event>)
    ensures forall e :: e in events ==> !e.StopBlocking?
    ensures Run(StartedUp(INITIAL, Started), events).world.alive == {2, 3}
  {
    events := [ChildDies(1), ExitCallback(1, "", 0, Started), Start(Started), RestartFires(Started)];
    var s0 := StartedUp(INITIAL, Started);
    var s1 := Step(s0, events[0]);
    var s2 := Step(s1, events[1]);
    var s3 := Step(s2, events[2]);
    var s4 := Step(s3, events[3]);
    assert s1.world.exits == {1} && s2.restartArmed && s3.world.alive == {2} && s4.world.alive == {2, 3};
    assert events[1..][1..] == events[2..] && events[2..][1..] == events[3..] && events[3..][1..] == [];
    assert Run(s3, events[3..]) == Run(s4, []);
  }

  /** One crash and the restart after it. */
  function Crash(g: nat): seq<Event> { [ChildDies(g), ExitCallback(g, "", 0, Started), RestartFires(Started)] }

  /** A child that is up, was never ready, and has `failures` failures behind it. */
  predicate Trying(s: State, failures: nat) {
    && s.process == Some(s.generation) && s.generation in s.world.alive && s.generation !in s.world.exits
    && !s.stopping && s.readyAt.None? && s.failures == failures
  }

  lemma CrashAndRestart(s: State, failures: nat)
    requires Trying(s, failures) && failures + 1 < MAX_CONSECUTIVE_FAILURES
    ensures var t := Run(s, Crash(s.generation));
            && Trying(t, failures + 1) && t.generation == s.generation + 1
            && SinceReset(t) == SinceReset(s) + 1
            && (forall x :: x in t.world.exits ==> x in s.world.exits || x == s.generation)
    requires s.generation + 1 !in s.world.exits
  {
    var g := s.generation;
    var s1 := Step(s, ChildDies(g));
    var s2 := Step(s1, ExitCallback(g, "", 0, Started));
    RunCons(s, ChildDies(g), [ExitCallback(g, "", 0, Started), RestartFires(Started)]);
    RunOfTwo(s1, ExitCallback(g, "", 0, Started), RestartFires(Started));
    assert Crash(g) == [ChildDies(g)] + [ExitCallback(g, "", 0, Started), RestartFires(Started)];
  }

  /** Crashes until the failures are all but used up. */
  lemma {:induction false} CrashesUntilSpent(s: State, failures: nat) returns (events: seq<Event>)
    requires Trying(s, failures) && failures < MAX_CONSECUTIVE_FAILURES
    requires forall x :: x in s.world.exits ==> x <= s.generation
    ensures forall e :: e in events ==> Supervised(e)
    ensures SinceReset(Run(s, events)) == SinceReset(s) + MAX_CONSECUTIVE_FAILURES - 1 - failures
    decreases MAX_CONSECUTIVE_FAILURES - failures
  {
    if failures + 1 == MAX_CONSECUTIVE_FAILURES {
      events := [];
    } else {
      CrashAndRestart(s, failures);
      var t := Run(s, Crash(s.generation));
      var more := CrashesUntilSpent(t, failures + 1);
      events := Crash(s.generation) + more;
      RunAppend(s, Crash(s.generation), more);
    }
  }

  /** A start that fails while a restart is pending gives the budget back for nothing: six launches follow one reset. */
  lemma FailingStartDuringRestartOverruns(s: State, outcome: Outcome) returns (events: seq<Event>)
    requires Inv(s) && s.process.None? && s.restartArmed && !outcome.Started?
    ensures forall e :: e in events ==> Supervised(e)
    ensures SinceReset(Run(Step(s, Start(outcome)), events)) == MAX_CONSECUTIVE_FAILURES + 1
  {
    var t := Step(s, Start(outcome));
    var u := Step(t, RestartFires(Started));
    var more := CrashesUntilSpent(u, 0);
    events := [RestartFires(Started)] + more;
    RunCons(t, RestartFires(Started), more);
  }

  /** A further `start` leaves every continuation within the supervisor's word, whatever comes of the launch. */
  ghost predicate StartIsHarmless(s: State) {
    forall outcome, events: seq<Event> :: (forall e :: e in events ==> Supervised(e)) ==>
      KeepsItsWord(Run(Step(s, Start(outcome)), events))
  }

  lemma SafeStartIsHarmless(s: State, outcome: Outcome, events: seq<Event>)
    requires Inv(s) && BudgetInv(s) && Safe(s, Start(outcome)) && forall e :: e in events ==> Supervised(e)
    ensures KeepsItsWord(Run(Step(s, Start(outcome)), events))
  {
    SafeStepKeepsInv(s, Start(outcome));
    RunKeepsInv(Step(s, Start(outcome)), events);
    InvMeansOneChild(Run(Step(s, Start(outcome)), events));
  }

  /** It is harmless exactly when a child is held or no restart is pending. */
  lemma StartIsHarmlessIff(s: State)
    requires Inv(s) && BudgetInv(s)
    ensures StartIsHarmless(s) <==> s.process.Some? || !s.restartArmed
  {
    if s.process.Some? || !s.restartArmed {
      forall outcome, events: seq<Event> | forall e :: e in events ==> Supervised(e)
        ensures KeepsItsWord(Run(Step(s, Start(outcome)), events))
      {
        SafeStartIsHarmless(s, outcome, events);
      }
    } else {
      StartDuringRestartDoubles(s);
      RunOfTwo(s, Start(Started), RestartFires(Started));
      var t := Step(s, Start(Started));
      RunCons(t, RestartFires(Started), []);
      assert [RestartFires(Started)] + [] == [RestartFires(Started)];
      assert forall e :: e in [RestartFires(Started)] ==> Supervised(e);
      assert !KeepsItsWord(Run(t, [RestartFires(Started)]));
    }
  }

  // ----- A late ready line -----

  /** A current ready line always publishes a running server; there is a process exactly when one is held already. */
  lemma LateReadyLine(s: State, endpoint: string, now: int)
    requires Inv(s)
    ensures var t := Step(s, ReadyLine(s.generation, endpoint, now));
            && t.status == Running(endpoint)
            && (t.process.Some? <==> s.process.Some?)
            && (s.process.None? ==> t.world.alive == {} && t.world.exits == s.world.exits && s.generation !in t.world.exits)
  {
  }

  /** A server published as running has a process. */
  predicate HeldIfRunning(s: State) { s.status.Running? ==> s.process.Some? }

  /** A current ready line is read while a process is held. */
  predicate Timely(s: State, e: Event) { e.ReadyLine? && e.gen == s.generation ==> s.process.Some? }

  predicate TimelyRun(s: State, events: seq<Event>)
    decreases |events|
  {
    events == [] || (Timely(s, events[0]) && TimelyRun(Step(s, events[0]), events[1..]))
  }

  /** At every point of the run, a server published as running has a process. */
  predicate HeldThroughout(s: State, events: seq<Event>)
    decreases |events|
  {
    HeldIfRunning(s) && (events == [] || HeldThroughout(Step(s, events[0]), events[1..]))
  }

  lemma StepIsHeldIff(s: State, e: Event)
    requires Inv(s) && HeldIfRunning(s) && Supervised(e)
    ensures HeldIfRunning(Step(s, e)) <==> Timely(s, e)
  {
  }

  /** "Running" is true of a held process at every point of a run exactly when no current ready line comes late. */
  lemma {:induction false} RunningIsHeldIff(s: State, events: seq<Event>)
    requires Inv(s) && HeldIfRunning(s) && forall e :: e in events ==> Supervised(e)
    ensures HeldThroughout(s, events) <==> TimelyRun(s, events)
    decreases |events|
  {
    if events != [] {
      var e := events[0];
      assert e in events;
      StepIsHeldIff(s, e);
      StepKeepsInv(s, e);
      if Timely(s, e) { RunningIsHeldIff(Step(s, e), events[1..]); }
    }
  }
}
