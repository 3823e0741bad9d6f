/**
 * The supervisor and its worker threads as interleaved steps: one `start`, which
 * waits for exit or returns at once and leaves the stopping to the owner's `stop`;
 * one worker per started adapter, one shared running flag, signals at any time. The
 * clock only decides whether a health check is due, which is left to chance.
 */
module Supervisor {
  /** Where the supervising thread is. */
  datatype Control =
    | Idle               // constructed; `start` not yet called
    | Starting(k: nat)   // about to start process k
    | StartFailed        // a process failed to start; the flag is about to be lowered
    | Polling            // waiting for the flag to fall
    | Detached           // `start` has returned without waiting
    | Stopping           // in `stop`, about to lower the flag itself
    | Joining(k: nat)    // about to join process k
    | Exited             // `stop` has returned

  /** Where a worker thread is in its loop. */
  datatype Pc = NotCreated | AtTest | InBody | Unhealthy | AtSpin | Sleeping | Finished

  /** `startOk`: the adapter's own start returned true. `late`: turns taken after the flag fell. */
  datatype Worker = Worker(pc: Pc, startOk: bool, spins: nat, late: nat)

  datatype State = State(running: bool, wait: bool, control: Control, workers: seq<Worker>, failedAt: int)

  datatype Action =
    | Launch(wait: bool) | StartProcess(ok: bool) | AllStarted | LowerAfterFailure
    | Poll | CallStop | BeginStop | Join | Leave
    | Signal
    | Test(w: nat) | Health(w: nat, due: bool, ok: bool) | LowerUnhealthy(w: nat) | Spin(w: nat) | Wake(w: nat)

  const NEW_WORKER := Worker(NotCreated, false, 0, 0)

  function Init(n: nat): State {
    State(false, false, Idle, seq(n, _ => NEW_WORKER), -1)
  }

  predicate At(s: State, w: nat, pc: Pc) {
    w < |s.workers| && s.workers[w].pc == pc
  }

  predicate Enabled(s: State, a: Action) {
    match a
    case Launch(_) => s.control == Idle
    case StartProcess(_) => s.control.Starting? && s.control.k < |s.workers|
    case AllStarted => s.control.Starting? && s.control.k >= |s.workers|
    case LowerAfterFailure => s.control == StartFailed
    case Poll => s.control == Polling
    case CallStop => s.control == Detached
    case BeginStop => s.control == Stopping
    case Join => s.control.Joining? && s.control.k < |s.workers|
                 && s.workers[s.control.k].pc in {NotCreated, Finished}
    case Leave => s.control.Joining? && s.control.k >= |s.workers|
    case Signal => true
    case Test(w) => At(s, w, AtTest)
    case Health(w, _, _) => At(s, w, InBody)
    case LowerUnhealthy(w) => At(s, w, Unhealthy)
    case Spin(w) => At(s, w, AtSpin)
    case Wake(w) => At(s, w, Sleeping)
  }

  function Move(s: State, w: nat, pc: Pc): State
    requires w < |s.workers|
  {
    s.(workers := s.workers[w := s.workers[w].(pc := pc)])
  }

  /** Where `start` goes on once it is done with the processes. */
  function AfterStarting(s: State): Control {
    if s.wait then Polling else Detached
  }

  function Next(s: State, a: Action): State
    requires Enabled(s, a)
  {
    match a
    case Launch(wait) => s.(running := true, wait := wait, control := Starting(0))
    case StartProcess(ok) =>
      var k := s.control.k;
      if ok then s.(control := Starting(k + 1), workers := s.workers[k := s.workers[k].(pc := AtTest, startOk := true)])
      else s.(control := StartFailed, failedAt := k)
    case AllStarted => s.(control := AfterStarting(s))
    case LowerAfterFailure => s.(running := false, control := AfterStarting(s))
    case Poll => if s.running then s else s.(control := Stopping)
    case CallStop => s.(control := Stopping)
    case BeginStop => s.(running := false, control := Joining(0))
    case Join => s.(control := Joining(s.control.k + 1))
    case Leave => s.(control := Exited)
    case Signal => s.(running := false)
    case Test(w) => Move(s, w, if s.running then InBody else Finished)
    case Health(w, due, ok) => Move(s, w, if due && !ok then Unhealthy else AtSpin)
    case LowerUnhealthy(w) => Move(s, w, Finished).(running := false)
    case Spin(w) =>
      var x := s.workers[w];
      s.(workers := s.workers[w :=
        x.(pc := Sleeping, spins := x.spins + 1, late := x.late + if s.running then 0 else 1)])
    case Wake(w) => Move(s, w, AtTest)
  }

  predicate IsRun(s: State, actions: seq<Action>)
    decreases |actions|
  {
    actions == [] || (Enabled(s, actions[0]) && IsRun(Next(s, actions[0]), actions[1..]))
  }

  function After(s: State, actions: seq<Action>): State
    requires IsRun(s, actions)
    decreases |actions|
  {
    if actions == [] then s else After(Next(s, actions[0]), actions[1..])
  }

  // ---- what every run keeps ----------------------------------------------------------------------

  /** Turns a worker may still take without testing the flag again. */
  function Pending(x: Worker): nat {
    if x.pc == InBody || x.pc == AtSpin then 1 else 0
  }

  predicate WorkerSound(running: bool, x: Worker) {
    && (x.pc == NotCreated <==> !x.startOk)
    && (x.spins > 0 ==> x.startOk) && x.late <= x.spins
    && (if running then x.late == 0 else x.late + Pending(x) <= 1)
  }

  /** How many processes have a worker, by control point: those before the one being started, those
      before the one that failed, or all. */
  function Created(s: State): int {
    if s.control == Idle then 0
    else if s.control.Starting? then s.control.k
    else if s.failedAt >= 0 then s.failedAt
    else |s.workers|
  }

  predicate Invariant(s: State) {
    && (forall w :: 0 <= w < |s.workers| ==> WorkerSound(s.running, s.workers[w]))
    && (forall w :: 0 <= w < |s.workers| ==> (s.workers[w].startOk <==> w < Created(s)))
    && -1 <= s.failedAt < |s.workers|
    && (s.control == Idle || s.control.Starting? ==> s.failedAt == -1)
    && (s.control == Idle ==> !s.running)
    && (s.control.Starting? ==> s.control.k <= |s.workers|)
    && (s.control == StartFailed ==> s.failedAt >= 0)
    && (s.control == Polling || s.control == Detached ==> s.failedAt >= 0 ==> !s.running)
    && (s.control.Joining? || s.control == Exited ==> !s.running)
    && (s.control.Joining? ==>
          && s.control.k <= |s.workers|
          && forall w :: 0 <= w < s.control.k ==> s.workers[w].pc in {NotCreated, Finished})
    && (s.control == Exited ==> forall w :: 0 <= w < |s.workers| ==> s.workers[w].pc in {NotCreated, Finished})
  }

  lemma WorkersStaySound(s: State, a: Action, w: nat)
    requires Invariant(s) && Enabled(s, a) && w < |s.workers|
    ensures w < |Next(s, a).workers| && WorkerSound(Next(s, a).running, Next(s, a).workers[w])
  {
    assert WorkerSound(s.running, s.workers[w]);
  }

  lemma JoinedStayEnded(s: State, a: Action)
    requires Invariant(s) && Enabled(s, a)
    ensures var n := Next(s, a);
            && (n.control.Joining? ==>
                  && !n.running && n.control.k <= |n.workers|
                  && forall w :: 0 <= w < n.control.k ==> n.workers[w].pc in {NotCreated, Finished})
            && (n.control == Exited ==>
                  !n.running && forall w :: 0 <= w < |n.workers| ==> n.workers[w].pc in {NotCreated, Finished})
  {
  }

  lemma StartedStayStarted(s: State, a: Action)
    requires Invariant(s) && Enabled(s, a)
    ensures var n := Next(s, a);
            forall w :: 0 <= w < |n.workers| ==> (n.workers[w].startOk <==> w < Created(n))
  {
  }

  lemma InvariantStep(s: State, a: Action)
    requires Invariant(s) && Enabled(s, a)
    ensures Invariant(Next(s, a))
  {
    JoinedStayEnded(s, a);
    StartedStayStarted(s, a);
    forall w | 0 <= w < |s.workers| ensures WorkerSound(Next(s, a).running, Next(s, a).workers[w]) {
      WorkersStaySound(s, a, w);
    }
  }

  lemma {:induction false} InvariantRun(s: State, actions: seq<Action>)
    requires Invariant(s) && IsRun(s, actions)
    ensures Invariant(After(s, actions)) && |After(s, actions).workers| == |s.workers|
    decreases |actions|
  {
    if actions != [] {
      InvariantStep(s, actions[0]);
      InvariantRun(Next(s, actions[0]), actions[1..]);
    }
  }

  /** In every interleaving: a turn is taken only by an adapter whose start returned true; a worker takes
      at most one turn after the flag fell; a failed k-th start leaves exactly the earlier ones started, and
      `start` goes on with all of them otherwise; and once `stop` has returned, called by a waiting `start`
      or by the owner, no worker is alive. */
  lemma SupervisorSafety(n: nat, actions: seq<Action>, w: nat)
    requires IsRun(Init(n), actions) && w < n
    ensures var s := After(Init(n), actions);
            && |s.workers| == n
            && (s.workers[w].spins > 0 ==> s.workers[w].startOk)
            && s.workers[w].late <= 1
            && (s.failedAt >= 0 ==> (s.workers[w].startOk <==> w < s.failedAt))
            && (s.failedAt < 0 && (s.control == Polling || s.control == Detached) ==> s.workers[w].startOk)
            && (s.control == Exited ==> s.workers[w].pc == NotCreated || s.workers[w].pc == Finished)
  {
    InvariantRun(Init(n), actions);
    var s := After(Init(n), actions);
    assert WorkerSound(s.running, s.workers[w]);
  }

  /** The flag is down and `start` has already raised it. */
  predicate Fallen(s: State) { !s.running && s.control != Idle }

  lemma {:induction false} FallenForGood(s: State, actions: seq<Action>)
    requires Fallen(s) && IsRun(s, actions)
    ensures Fallen(After(s, actions))
    decreases |actions|
  {
    if actions != [] {
      FallenForGood(Next(s, actions[0]), actions[1..]);
    }
  }

  ghost predicate StaysDown(s: State) {
    forall actions :: IsRun(s, actions) ==> !After(s, actions).running
  }

  /** A termination signal takes effect for good exactly if `start` has been called: before that, the
      flag it lowers is raised again by `start`. */
  lemma SignalHeeded(s: State)
    ensures StaysDown(Next(s, Signal)) <==> s.control != Idle
  {
    var down := Next(s, Signal);
    if s.control == Idle {
      var run, up := [Launch(true)], Next(down, Launch(true));
      assert run[1..] == [] && IsRun(up, []) && After(up, []) == up;
      assert IsRun(down, run) && After(down, run) == up;
    } else {
      forall actions | IsRun(down, actions) ensures !After(down, actions).running {
        FallenForGood(down, actions);
      }
    }
  }

  // ---- termination -------------------------------------------------------------------------------

  function Steps(pc: Pc): nat {
    match pc
    case NotCreated => 0
    case Finished => 0
    case Unhealthy => 1
    case AtTest => 1
    case Sleeping => 2
    case AtSpin => 3
    case InBody => 4
  }

  function WorkerSteps(ws: seq<Worker>): nat {
    if ws == [] then 0 else Steps(ws[0].pc) + WorkerSteps(ws[1..])
  }

  function ControlSteps(c: Control, n: nat): int {
    match c
    case Idle => 0
    case Starting(k) => 2 * (n - k) + n + 4
    case StartFailed => n + 4
    case Polling => n + 3
    case Detached => n + 3
    case Stopping => n + 2
    case Joining(k) => n - k + 1
    case Exited => 0
  }

  /** An upper bound on the steps left once the flag has fallen. */
  function Remaining(s: State): int {
    ControlSteps(s.control, |s.workers|) + WorkerSteps(s.workers)
  }

  lemma {:induction false} WorkerStepsUpdate(ws: seq<Worker>, w: nat, x: Worker)
    requires w < |ws|
    ensures WorkerSteps(ws[w := x]) == WorkerSteps(ws) - Steps(ws[w].pc) + Steps(x.pc)
  {
    var us := ws[w := x];
    if w == 0 {
      assert us[1..] == ws[1..];
    } else {
      assert us[1..] == ws[1..][w - 1 := x];
      WorkerStepsUpdate(ws[1..], w - 1, x);
    }
  }

  predicate OfWorker(a: Action) {
    a.Test? || a.Health? || a.LowerUnhealthy? || a.Spin? || a.Wake?
  }

  lemma RemainingWorkerStep(s: State, a: Action)
    requires !s.running && Enabled(s, a) && OfWorker(a)
    ensures Remaining(Next(s, a)) < Remaining(s)
  {
    WorkerStepsUpdate(s.workers, a.w, Next(s, a).workers[a.w]);
  }

  lemma RemainingControlStep(s: State, a: Action)
    requires Invariant(s) && Fallen(s) && Enabled(s, a) && !OfWorker(a) && a != Signal
    ensures Remaining(Next(s, a)) < Remaining(s)
  {
    if a == StartProcess(true) {
      var k := s.control.k;
      assert WorkerSound(s.running, s.workers[k]);
      WorkerStepsUpdate(s.workers, k, Next(s, a).workers[k]);
    }
  }

  lemma RemainingStep(s: State, a: Action)
    requires Invariant(s) && Fallen(s) && Enabled(s, a)
    ensures if a == Signal then Remaining(Next(s, a)) == Remaining(s) else Remaining(Next(s, a)) < Remaining(s)
  {
    if OfWorker(a) {
      RemainingWorkerStep(s, a);
    } else if a != Signal {
      RemainingControlStep(s, a);
    }
  }

  function OwnSteps(actions: seq<Action>): nat {
    if actions == [] then 0 else (if actions[0] == Signal then 0 else 1) + OwnSteps(actions[1..])
  }

  /** After the flag has fallen, every schedule is short: apart from further signals, at most `Remaining`
      steps happen, whoever takes them. */
  lemma {:induction false} ShutdownIsBounded(s: State, actions: seq<Action>)
    requires Invariant(s) && Fallen(s) && IsRun(s, actions)
    ensures OwnSteps(actions) + Remaining(After(s, actions)) <= Remaining(s)
    decreases |actions|
  {
    if actions != [] {
      RemainingStep(s, actions[0]);
      InvariantStep(s, actions[0]);
      ShutdownIsBounded(Next(s, actions[0]), actions[1..]);
    }
  }

  lemma {:induction false} WorkerStepsBound(ws: seq<Worker>)
    ensures WorkerSteps(ws) <= 4 * |ws|
  {
    if ws != [] { WorkerStepsBound(ws[1..]); }
  }

  /** And no schedule gets stuck: until `stop` has returned, someone other than a signal can step, if only the
      owner of a detached supervisor by calling `stop`. */
  lemma ShutdownProgress(s: State)
    requires Invariant(s) && Fallen(s) && s.control != Exited
    ensures exists a :: a != Signal && Enabled(s, a)
  {
    match s.control {
      case Starting(k) =>
        assert if k < |s.workers| then Enabled(s, StartProcess(true)) else Enabled(s, AllStarted);
      case StartFailed => assert Enabled(s, LowerAfterFailure);
      case Polling => assert Enabled(s, Poll);
      case Detached => assert Enabled(s, CallStop);
      case Stopping => assert Enabled(s, BeginStop);
      case Joining(k) =>
        if k < |s.workers| {
          match s.workers[k].pc {
            case AtTest => assert Enabled(s, Test(k));
            case InBody => assert Enabled(s, Health(k, false, true));
            case Unhealthy => assert Enabled(s, LowerUnhealthy(k));
            case AtSpin => assert Enabled(s, Spin(k));
            case Sleeping => assert Enabled(s, Wake(k));
            case _ => assert Enabled(s, Join);
          }
        } else {
          assert Enabled(s, Leave);
        }
      case _ =>
    }
  }

  ghost predicate OnlySignalsLeft(s: State) {
    forall a :: Enabled(s, a) ==> a == Signal
  }

  /** `stop` has returned and no worker is alive. */
  predicate AllEnded(s: State) {
    s.control == Exited && forall w :: 0 <= w < |s.workers| ==> At(s, w, NotCreated) || At(s, w, Finished)
  }

  /** A schedule that only stops when nothing but signals can happen ends with `stop` returned and no worker
      alive, within 7n + 4 steps of the flag's fall. */
  lemma FallEndsEverything(n: nat, before: seq<Action>, actions: seq<Action>)
    requires IsRun(Init(n), before) && Fallen(After(Init(n), before))
    requires IsRun(After(Init(n), before), actions)
    requires OnlySignalsLeft(After(After(Init(n), before), actions))
    ensures AllEnded(After(After(Init(n), before), actions)) && OwnSteps(actions) <= 7 * n + 4
  {
    var start := After(Init(n), before);
    InvariantRun(Init(n), before);
    InvariantRun(start, actions);
    FallenForGood(start, actions);
    ShutdownIsBounded(start, actions);
    WorkerStepsBound(start.workers);
    var end := After(start, actions);
    if end.control != Exited {
      ShutdownProgress(end);
      assert false;
    }
    assert Remaining(end) >= 0;
  }

  lemma TurnAfterFall(s: State, a: Action, w: nat)
    requires Fallen(s) && Enabled(s, a) && w < |s.workers|
    requires a == StartProcess(true) && s.control.k == w ==> s.workers[w].pc == NotCreated
    ensures var x, y := s.workers[w], Next(s, a).workers[w];
            y.spins + Pending(y) <= x.spins + Pending(x)
  {
  }

  /** After the flag fell, a worker finishes the turn it is in and takes no other. */
  lemma {:induction false} TurnsAfterFall(s: State, actions: seq<Action>, w: nat)
    requires Invariant(s) && Fallen(s) && IsRun(s, actions) && w < |s.workers|
    ensures |After(s, actions).workers| == |s.workers|
    ensures After(s, actions).workers[w].spins <= s.workers[w].spins + Pending(s.workers[w])
    ensures After(s, actions).workers[w].spins <= s.workers[w].spins + 1
    decreases |actions|
  {
    if actions != [] {
      InvariantStep(s, actions[0]);
      assert WorkerSound(s.running, s.workers[w]);
      TurnAfterFall(s, actions[0], w);
      TurnsAfterFall(Next(s, actions[0]), actions[1..], w);
    }
  }

  // ---- what ends them all, and what does not ---------------------------------------------------------

  /** The flag has fallen, or somebody is about to lower it. */
  ghost predicate Doomed(s: State) {
    && s.control != Idle
    && (!s.running || s.control == StartFailed || s.control == Stopping || exists w :: At(s, w, Unhealthy))
  }

  lemma DoomedStep(s: State, a: Action)
    requires Invariant(s) && Doomed(s) && Enabled(s, a)
    ensures Doomed(Next(s, a))
  {
    if w: nat :| w < |s.workers| && At(s, w, Unhealthy) {
      assert WorkerSound(s.running, s.workers[w]);
      assert a == LowerUnhealthy(w) || At(Next(s, a), w, Unhealthy);
    }
  }

  lemma {:induction false} DoomedRun(s: State, actions: seq<Action>)
    requires Invariant(s) && Doomed(s) && IsRun(s, actions)
    ensures Invariant(After(s, actions)) && Doomed(After(s, actions))
    decreases |actions|
  {
    if actions != [] {
      InvariantStep(s, actions[0]);
      DoomedStep(s, actions[0]);
      DoomedRun(Next(s, actions[0]), actions[1..]);
    }
  }

  /** Where only signals can still happen, a doomed system has ended. */
  lemma DoomedEnds(s: State, actions: seq<Action>)
    requires Invariant(s) && Doomed(s) && IsRun(s, actions) && OnlySignalsLeft(After(s, actions))
    ensures AllEnded(After(s, actions)) && !After(s, actions).running
  {
    DoomedRun(s, actions);
    var end := After(s, actions);
    if w :| At(end, w, Unhealthy) {
      assert Enabled(end, LowerUnhealthy(w));
      assert false;
    }
    assert end.control == StartFailed ==> Enabled(end, LowerAfterFailure);
    assert end.control == Stopping ==> Enabled(end, BeginStop);
    if end.control != Exited {
      ShutdownProgress(end);
      assert false;
    }
  }

  lemma FinishedStep(s: State, a: Action, w: nat)
    requires Invariant(s) && Enabled(s, a) && At(s, w, Finished)
    ensures At(Next(s, a), w, Finished) && Next(s, a).workers[w].spins == s.workers[w].spins
  {
    assert WorkerSound(s.running, s.workers[w]);
  }

  lemma GaveUpStep(s: State, a: Action, w: nat)
    requires Invariant(s) && Enabled(s, a) && At(s, w, Unhealthy)
    ensures w < |Next(s, a).workers| && Next(s, a).workers[w].spins == s.workers[w].spins
    ensures if a == LowerUnhealthy(w) then At(Next(s, a), w, Finished) && Fallen(Next(s, a))
            else At(Next(s, a), w, Unhealthy)
  {
    assert WorkerSound(s.running, s.workers[w]);
  }

  lemma {:induction false} StaysFinished(s: State, actions: seq<Action>, w: nat)
    requires Invariant(s) && At(s, w, Finished) && IsRun(s, actions)
    ensures At(After(s, actions), w, Finished) && After(s, actions).workers[w].spins == s.workers[w].spins
    decreases |actions|
  {
    if actions != [] {
      InvariantStep(s, actions[0]);
      FinishedStep(s, actions[0], w);
      StaysFinished(Next(s, actions[0]), actions[1..], w);
    }
  }

  /** A worker that found its adapter unhealthy takes no further turn; it lowers the flag and is finished. */
  lemma {:induction false} GivesUpForGood(s: State, actions: seq<Action>, w: nat)
    requires Invariant(s) && At(s, w, Unhealthy) && IsRun(s, actions)
    ensures w < |After(s, actions).workers| && After(s, actions).workers[w].spins == s.workers[w].spins
    ensures if LowerUnhealthy(w) in actions then At(After(s, actions), w, Finished) && Fallen(After(s, actions))
            else At(After(s, actions), w, Unhealthy)
    decreases |actions|
  {
    if actions != [] {
      var n := Next(s, actions[0]);
      InvariantStep(s, actions[0]);
      GaveUpStep(s, actions[0], w);
      if actions[0] == LowerUnhealthy(w) {
        StaysFinished(n, actions[1..], w);
        FallenForGood(n, actions[1..]);
      } else {
        GivesUpForGood(n, actions[1..], w);
      }
    }
  }

  /** A due health check that fails: whatever happens next, that adapter takes no further turn; once its worker
      has acted on it the flag is down for good; and every schedule that goes on as long as it can ends with
      `stop` returned and no worker alive. */
  lemma UnhealthyAdapterEndsAll(n: nat, before: seq<Action>, w: nat, actions: seq<Action>)
    requires IsRun(Init(n), before) && Enabled(After(Init(n), before), Health(w, true, false))
    requires IsRun(Next(After(Init(n), before), Health(w, true, false)), actions)
    ensures var s := After(Init(n), before);
            var end := After(Next(s, Health(w, true, false)), actions);
            && w < |s.workers| == |end.workers| && end.workers[w].spins == s.workers[w].spins
            && (LowerUnhealthy(w) in actions ==> !end.running)
            && (OnlySignalsLeft(end) ==> !end.running && AllEnded(end))
  {
    InvariantRun(Init(n), before);
    var s := After(Init(n), before);
    var found := Next(s, Health(w, true, false));
    assert WorkerSound(s.running, s.workers[w]);
    InvariantStep(s, Health(w, true, false));
    InvariantRun(found, actions);
    assert At(found, w, Unhealthy);
    GivesUpForGood(found, actions, w);
    if OnlySignalsLeft(After(found, actions)) {
      DoomedEnds(found, actions);
    }
  }

  /** So it does when a process fails to start. */
  lemma FailedStartEndsAll(n: nat, before: seq<Action>, actions: seq<Action>)
    requires IsRun(Init(n), before) && Enabled(After(Init(n), before), StartProcess(false))
    requires IsRun(Next(After(Init(n), before), StartProcess(false)), actions)
    ensures var end := After(Next(After(Init(n), before), StartProcess(false)), actions);
            OnlySignalsLeft(end) ==> !end.running && AllEnded(end)
  {
    InvariantRun(Init(n), before);
    var s := After(Init(n), before);
    InvariantStep(s, StartProcess(false));
    if OnlySignalsLeft(After(Next(s, StartProcess(false)), actions)) {
      DoomedEnds(Next(s, StartProcess(false)), actions);
    }
  }

  /** And when the owner of a detached supervisor stops it. */
  lemma StopEndsAll(n: nat, before: seq<Action>, actions: seq<Action>)
    requires IsRun(Init(n), before) && Enabled(After(Init(n), before), CallStop)
    requires IsRun(Next(After(Init(n), before), CallStop), actions)
    ensures var end := After(Next(After(Init(n), before), CallStop), actions);
            OnlySignalsLeft(end) ==> !end.running && AllEnded(end)
  {
    InvariantRun(Init(n), before);
    var s := After(Init(n), before);
    InvariantStep(s, CallStop);
    if OnlySignalsLeft(After(Next(s, CallStop), actions)) {
      DoomedEnds(Next(s, CallStop), actions);
    }
  }

  /** No signal, no stop, no failed start, and no due health check that fails. */
  predicate Calm(a: Action) {
    a != Signal && a != CallStop && a != StartProcess(false) && (a.Health? ==> !a.due || a.ok)
  }

  predicate Undisturbed(s: State) {
    && s.running && (s.control.Starting? || s.control == Polling || s.control == Detached)
    && forall w :: 0 <= w < |s.workers| ==> s.workers[w].pc != Unhealthy && s.workers[w].pc != Finished
  }

  lemma {:induction false} UndisturbedRun(s: State, actions: seq<Action>)
    requires Undisturbed(s) && IsRun(s, actions) && forall i :: 0 <= i < |actions| ==> Calm(actions[i])
    ensures Undisturbed(After(s, actions))
    decreases |actions|
  {
    if actions != [] {
      assert Calm(actions[0]);
      assert forall i :: 0 <= i < |actions[1..]| ==> actions[1..][i] == actions[i + 1];
      UndisturbedRun(Next(s, actions[0]), actions[1..]);
    }
  }

  /** Conversely nothing else ends them: after `start` was called, while nobody signals or stops, no start fails and
      every health check that is due is passed, the flag is up and no worker has ended. */
  lemma NothingElseEndsThem(n: nat, wait: bool, actions: seq<Action>)
    requires IsRun(Next(Init(n), Launch(wait)), actions)
    requires forall i :: 0 <= i < |actions| ==>
               && actions[i] != Signal && actions[i] != CallStop && actions[i] != StartProcess(false)
               && (actions[i].Health? ==> !actions[i].due || actions[i].ok)
    ensures var s := After(Next(Init(n), Launch(wait)), actions);
            s.running && forall w :: 0 <= w < |s.workers| ==> s.workers[w].pc != Finished
  {
    forall i | 0 <= i < |actions| ensures Calm(actions[i]) {
    }
    UndisturbedRun(Next(Init(n), Launch(wait)), actions);
  }

  predicate WaitsAsTold(s: State, wait: bool) {
    s.control != Idle && s.wait == wait && (s.control == Polling ==> wait) && (s.control == Detached ==> !wait)
  }

  /** `start` polls for the end exactly if it was told to wait, and returns at once otherwise. */
  lemma {:induction false} WaitingIsAsTold(s: State, wait: bool, actions: seq<Action>)
    requires WaitsAsTold(s, wait) && IsRun(s, actions)
    ensures After(s, actions).control == Polling ==> wait
    ensures After(s, actions).control == Detached ==> !wait
    decreases |actions|
  {
    if actions != [] {
      WaitingIsAsTold(Next(s, actions[0]), wait, actions[1..]);
    }
  }

  lemma LaunchDecides(n: nat, wait: bool, actions: seq<Action>)
    requires IsRun(Next(Init(n), Launch(wait)), actions)
    ensures After(Next(Init(n), Launch(wait)), actions).control == Polling ==> wait
    ensures After(Next(Init(n), Launch(wait)), actions).control == Detached ==> !wait
  {
    WaitingIsAsTold(Next(Init(n), Launch(wait)), wait, actions);
  }

  lemma RunCons(s: State, a: Action, rest: seq<Action>, run: seq<Action>)
    requires Enabled(s, a) && IsRun(Next(s, a), rest) && run == [a] + rest
    ensures IsRun(s, run) && After(s, run) == After(Next(s, a), rest)
  {
    assert run[1..] == rest;
  }

  lemma RoundSteps(s: State, w: nat, due: bool, ok: bool)
    requires s.running && At(s, w, AtTest) && (!due || ok)
    ensures var tested := Next(s, Test(w));
            && At(tested, w, InBody)
            && var checked := Next(tested, Health(w, due, ok));
               && At(checked, w, AtSpin)
               && var spun := Next(checked, Spin(w));
                  && At(spun, w, Sleeping)
                  && Next(spun, Wake(w)) ==
                     s.(workers := s.workers[w := s.workers[w].(spins := s.workers[w].spins + 1)])
  {
    var x := s.workers[w];
    assert Next(s, Test(w)) == Move(s, w, InBody);
    assert Next(Move(s, w, InBody), Health(w, due, ok)) == Move(s, w, AtSpin);
    assert Next(Move(s, w, AtSpin), Spin(w)).workers == s.workers[w := x.(pc := Sleeping, spins := x.spins + 1)];
  }

  lemma RoundRuns(s: State, a: Action, b: Action, c: Action, d: Action)
    requires Enabled(s, a) && Enabled(Next(s, a), b) && Enabled(Next(Next(s, a), b), c)
    requires Enabled(Next(Next(Next(s, a), b), c), d)
    ensures IsRun(s, [a, b, c, d])
    ensures After(s, [a, b, c, d]) == Next(Next(Next(Next(s, a), b), c), d)
  {
    var t, u, v := Next(s, a), Next(Next(s, a), b), Next(Next(Next(s, a), b), c);
    RunCons(v, d, [], [d]);
    RunCons(u, c, [d], [c, d]);
    RunCons(t, b, [c, d], [b, c, d]);
    RunCons(s, a, [b, c, d], [a, b, c, d]);
  }

  /** A round of the worker's loop while the flag is up: unless a due check fails, exactly one turn is taken. */
  lemma HealthyRound(s: State, w: nat, due: bool, ok: bool)
    requires s.running && At(s, w, AtTest) && (!due || ok)
    ensures var round := [Test(w), Health(w, due, ok), Spin(w), Wake(w)];
            && IsRun(s, round)
            && After(s, round) == s.(workers := s.workers[w := s.workers[w].(spins := s.workers[w].spins + 1)])
  {
    RoundSteps(s, w, due, ok);
    RoundRuns(s, Test(w), Health(w, due, ok), Spin(w), Wake(w));
  }
}
