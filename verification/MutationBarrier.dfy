/** The mutation barrier: shared leases for local writes against one exclusive mode transition.
    Every synchronous stretch between two awaits is one step; any number of callers interleave. */
module MutationBarrier {
  import opened LocalTables

  /** A call of beginModeTransition: waiting for the last local lease; woken or never waiting but
      not resumed yet; holding its lease; done. */
  datatype Phase = Draining | Drained | Granted | Released

  /** The module's variables (`leases` holds the released flag of every local lease ever issued,
      `drain` the call whose resolve function sits in the single slot), the state of every
      beginModeTransition call, and the tasks of beginModeSafeLocalAccess that were woken. */
  datatype Barrier = Barrier(
    active: Option<nat>,
    count: int,
    drain: Option<nat>,
    waiters: set<nat>,
    leases: seq<bool>,
    transitions: seq<Phase>,
    ready: set<nat>)

  const OPEN_BARRIER := Barrier(None, 0, None, {}, [], [], {})

  /** `fits`: the caller's data space is the exposed one and access is not blocked. */
  datatype BarrierStep =
    | BeginLocal(fits: bool)
    | ReleaseLocal(lease: nat)
    | BeginTransition
    | ResumeTransition(t: nat)
    | ReleaseTransition(t: nat)
    | SafeAccess(task: nat)

  predicate IsHeld(b: Barrier, lease: nat) { lease < |b.leases| && !b.leases[lease] }

  function Held(b: Barrier): set<nat> {
    set i: nat | i < |b.leases| && !b.leases[i]
  }

  function Reserve(b: Barrier): Barrier {
    b.(count := b.count + 1, leases := b.leases + [false])
  }

  function ReleaseLease(b: Barrier, lease: nat): Barrier {
    if !IsHeld(b, lease) then b
    else
      var next := b.(leases := b.leases[lease := true], count := b.count - 1);
      if next.active.None? || next.count != 0 || next.drain.None? || next.drain.value >= |next.transitions| then next
      else next.(drain := None, transitions := next.transitions[next.drain.value := Drained])
  }

  function Admit(b: Barrier): Barrier {
    var t := |b.transitions|;
    if b.active.Some? then b
    else if b.count > 0 then b.(active := Some(t), drain := Some(t), transitions := b.transitions + [Draining])
    else b.(active := Some(t), transitions := b.transitions + [Drained])
  }

  function Reopen(b: Barrier, t: nat): Barrier {
    if t >= |b.transitions| || b.transitions[t] != Granted then b
    else
      var next := b.(transitions := b.transitions[t := Released]);
      if b.active != Some(t) then next else next.(active := None, waiters := {}, ready := b.ready + b.waiters)
  }

  function NextBarrier(b: Barrier, step: BarrierStep): Barrier {
    match step
    case BeginLocal(fits) => if b.active.Some? || !fits then b else Reserve(b)
    case ReleaseLocal(lease) => ReleaseLease(b, lease)
    case BeginTransition => Admit(b)
    case ResumeTransition(t) =>
      if t < |b.transitions| && b.transitions[t] == Drained then b.(transitions := b.transitions[t := Granted]) else b
    case ReleaseTransition(t) => Reopen(b, t)
    case SafeAccess(task) =>
      if task in b.waiters then b
      else if b.active.Some? then b.(waiters := b.waiters + {task}, ready := b.ready - {task})
      else Reserve(b.(ready := b.ready - {task}))
  }

  function RunBarrier(b: Barrier, steps: seq<BarrierStep>): Barrier
    decreases |steps|
  {
    if steps == [] then b else NextBarrier(RunBarrier(b, steps[..|steps| - 1]), steps[|steps| - 1])
  }

  ghost predicate Guarded(b: Barrier) {
    && b.count == |Held(b)|
    && (b.active.Some? ==> b.active.value < |b.transitions|)
    && (forall t :: 0 <= t < |b.transitions| ==> (b.transitions[t] != Released <==> b.active == Some(t)))
    && (forall t :: 0 <= t < |b.transitions| && (b.transitions[t] == Drained || b.transitions[t] == Granted) ==>
       Held(b) == {})
    && (forall t :: 0 <= t < |b.transitions| && b.transitions[t] == Draining ==> b.drain == Some(t) && Held(b) != {})
    && (b.drain.Some? ==> b.drain.value < |b.transitions| && b.transitions[b.drain.value] == Draining)
    && (b.waiters != {} ==> b.active.Some?)
    && b.waiters !! b.ready
  }

  lemma ReserveHolds(b: Barrier)
    ensures Held(Reserve(b)) == Held(b) + {|b.leases|} && |b.leases| !in Held(b)
  {
    assert forall i :: 0 <= i < |b.leases| ==> Reserve(b).leases[i] == b.leases[i];
  }

  lemma ReleaseFrees(b: Barrier, lease: nat)
    requires IsHeld(b, lease)
    ensures Held(ReleaseLease(b, lease)) == Held(b) - {lease}
    ensures lease in Held(b)
  {
  }

  lemma ReserveIsGuarded(b: Barrier)
    requires Guarded(b) && b.active.None?
    ensures Guarded(Reserve(b))
  {
    ReserveHolds(b);
  }

  lemma ReleaseIsGuarded(b: Barrier, lease: nat)
    requires Guarded(b) && IsHeld(b, lease)
    ensures Guarded(ReleaseLease(b, lease))
  {
    ReleaseFrees(b, lease);
    var next := ReleaseLease(b, lease);
    assert |Held(next)| == |Held(b)| - 1;
    assert b.active.Some? && next.count == 0 ==> Held(next) == {};
  }

  lemma TransitionIsGuarded(b: Barrier, step: BarrierStep)
    requires Guarded(b) && (step.BeginTransition? || step.ResumeTransition? || step.ReleaseTransition?)
    ensures Guarded(NextBarrier(b, step))
  {
    assert NextBarrier(b, step).leases == b.leases;
    assert Held(NextBarrier(b, step)) == Held(b);
  }

  lemma StepIsGuarded(b: Barrier, step: BarrierStep)
    requires Guarded(b)
    ensures Guarded(NextBarrier(b, step))
  {
    match step
    case BeginLocal(fits) => if b.active.None? { ReserveIsGuarded(b); }
    case ReleaseLocal(lease) => if IsHeld(b, lease) { ReleaseIsGuarded(b, lease); }
    case SafeAccess(task) => if b.active.None? { ReserveIsGuarded(b.(ready := b.ready - {task})); }
    case _ => TransitionIsGuarded(b, step);
  }

  /** The counter is the number of unreleased leases, a drained or granted transition never
      coexists with one, and nobody waits without someone who will wake it. */
  lemma {:induction false} RunsAreGuarded(steps: seq<BarrierStep>)
    ensures Guarded(RunBarrier(OPEN_BARRIER, steps))
    decreases |steps|
  {
    if steps == [] {
      assert Held(OPEN_BARRIER) == {};
    } else {
      RunsAreGuarded(steps[..|steps| - 1]);
      StepIsGuarded(RunBarrier(OPEN_BARRIER, steps[..|steps| - 1]), steps[|steps| - 1]);
    }
  }

  /** While a transition is active no lease is added and none comes back. */
  lemma OnlyReleases(b: Barrier, step: BarrierStep)
    requires Guarded(b) && b.active.Some?
    ensures var next := NextBarrier(b, step);
      && (next.active == b.active || step == ReleaseTransition(b.active.value))
      && Held(next) <= Held(b)
      && |next.leases| == |b.leases|
  {
    if step.ReleaseLocal? && IsHeld(b, step.lease) { ReleaseFrees(b, step.lease); }
  }

  /** Since `b`, where `t` waits, `t` has been woken or still waits, for leases of `b` only. */
  ghost predicate SinceWaiting(b: Barrier, later: Barrier, t: nat) {
    && Guarded(later) && t < |later.transitions| && |b.leases| <= |later.leases|
    && (later.transitions[t] == Draining
       ==> later.active == Some(t) && |later.leases| == |b.leases| && Held(later) <= Held(b))
  }

  lemma WaitsOn(b: Barrier, mid: Barrier, step: BarrierStep, t: nat)
    requires SinceWaiting(b, mid, t)
    ensures SinceWaiting(b, NextBarrier(mid, step), t)
  {
    StepIsGuarded(mid, step);
    if mid.transitions[t] == Draining { OnlyReleases(mid, step); }
  }

  lemma AllReleasedWakes(b: Barrier, later: Barrier, t: nat)
    requires SinceWaiting(b, later, t)
    ensures (forall i :: i in Held(b) ==> later.leases[i]) ==> later.transitions[t] != Draining
  {
    assert (forall i :: i in Held(b) ==> later.leases[i]) && Held(later) <= Held(b) ==> Held(later) == {};
  }

  /** A waiting transition is woken by the last release, whatever else happens meanwhile: as soon
      as every lease it found has been released it does not wait any more. */
  lemma {:induction false} DrainEnds(b: Barrier, steps: seq<BarrierStep>, t: nat)
    requires Guarded(b) && t < |b.transitions| && b.transitions[t] == Draining
    ensures var later := RunBarrier(b, steps);
      SinceWaiting(b, later, t) && ((forall i :: i in Held(b) ==> later.leases[i]) ==> later.transitions[t] != Draining)
    decreases |steps|
  {
    if steps != [] {
      DrainEnds(b, steps[..|steps| - 1], t);
      WaitsOn(b, RunBarrier(b, steps[..|steps| - 1]), steps[|steps| - 1], t);
    }
    AllReleasedWakes(b, RunBarrier(b, steps), t);
  }

  lemma GrantedOnce(b: Barrier, step: BarrierStep, t: nat)
    requires Guarded(b) && t < |b.transitions| && (b.transitions[t] == Granted || b.transitions[t] == Released)
    ensures var next := NextBarrier(b, step);
      t < |next.transitions| && (next.transitions[t] == b.transitions[t] || next.transitions[t] == Released)
  {
  }

  /** Releasing the transition wakes every task that waits for it. */
  lemma ReopenWakes(b: Barrier, t: nat)
    requires Guarded(b) && t < |b.transitions| && b.transitions[t] == Granted
    ensures var next := NextBarrier(b, ReleaseTransition(t));
      next.active == None && next.waiters == {} && next.ready == b.ready + b.waiters
  {
  }

  /** The barrier as the program holds it. */
  class MutationBarrier {
    var activeTransition: Option<nat>
    var activeLocalMutations: int
    var resolveDrained: Option<nat>
    var transitionReleaseWaiters: set<nat>
    var leases: seq<bool>
    var transitions: seq<Phase>
    var woken: set<nat>

    function State(): Barrier
      reads this
    {
      Barrier(activeTransition, activeLocalMutations, resolveDrained, transitionReleaseWaiters, leases, transitions,
        woken)
    }

    constructor ()
      ensures State() == OPEN_BARRIER && Guarded(State())
    {
      activeTransition, activeLocalMutations, resolveDrained := None, 0, None;
      transitionReleaseWaiters, leases, transitions, woken := {}, [], [], {};
      RunsAreGuarded([]);
    }

    /** None: it threw. */
    method BeginLocalMutation(fits: bool) returns (lease: Option<nat>)
      requires Guarded(State())
      modifies this
      ensures Guarded(State()) && State() == NextBarrier(old(State()), BeginLocal(fits))
      ensures lease == if old(activeTransition).Some? || !fits then None else Some(old(|leases|))
      ensures lease.Some? ==> IsHeld(State(), lease.value)
    {
      StepIsGuarded(State(), BeginLocal(fits));
      if activeTransition.Some? || !fits { return None; }
      var reserved := ReserveLocalLease();
      lease := Some(reserved);
    }

    method ReserveLocalLease() returns (lease: nat)
      modifies this
      ensures State() == Reserve(old(State())) && lease == old(|leases|)
    {
      activeLocalMutations := activeLocalMutations + 1;
      lease := |leases|;
      leases := leases + [false];
    }

    method Release(lease: nat)
      requires Guarded(State()) && lease < |leases|
      modifies this
      ensures Guarded(State()) && State() == NextBarrier(old(State()), ReleaseLocal(lease))
      ensures leases == old(leases)[lease := true]
    {
      StepIsGuarded(State(), ReleaseLocal(lease));
      if leases[lease] { return; }
      leases := leases[lease := true];
      activeLocalMutations := activeLocalMutations - 1;
      if activeTransition.Some? && activeLocalMutations == 0 {
        var resolve := resolveDrained;
        resolveDrained := None;
        if resolve.Some? { transitions := transitions[resolve.value := Drained]; }
      }
    }

    /** The stretch up to the await. None: it threw. */
    method BeginModeTransition() returns (t: Option<nat>)
      requires Guarded(State())
      modifies this
      ensures Guarded(State()) && State() == NextBarrier(old(State()), BeginTransition)
      ensures t == if old(activeTransition).Some? then None else Some(old(|transitions|))
      ensures t.Some? ==> transitions[t.value] == if old(activeLocalMutations) > 0 then Draining else Drained
    {
      StepIsGuarded(State(), BeginTransition);
      if activeTransition.Some? { return None; }
      t := Some(|transitions|);
      activeTransition := t;
      if activeLocalMutations > 0 {
        resolveDrained := t;
        transitions := transitions + [Draining];
      } else {
        transitions := transitions + [Drained];
      }
    }

    /** Its lease's release function. */
    method ReleaseMode(t: nat)
      requires Guarded(State()) && t < |transitions| && (transitions[t] == Granted || transitions[t] == Released)
      modifies this
      ensures Guarded(State()) && State() == NextBarrier(old(State()), ReleaseTransition(t))
      ensures transitions == old(transitions)[t := Released]
    {
      StepIsGuarded(State(), ReleaseTransition(t));
      if transitions[t] == Released { return; }
      transitions := transitions[t := Released];
      if activeTransition == Some(t) {
        activeTransition := None;
        var waiters := transitionReleaseWaiters;
        transitionReleaseWaiters := {};
        woken := woken + waiters;
      }
    }

    /** One pass of the loop of beginModeSafeLocalAccess. None: the task waits again. */
    method BeginModeSafeLocalAccess(task: nat) returns (lease: Option<nat>)
      requires Guarded(State()) && task !in transitionReleaseWaiters
      modifies this
      ensures Guarded(State()) && State() == NextBarrier(old(State()), SafeAccess(task))
      ensures lease.Some? <==> old(activeTransition).None?
      ensures lease.Some? ==> IsHeld(State(), lease.value)
      ensures lease.None? ==> task in transitionReleaseWaiters
    {
      StepIsGuarded(State(), SafeAccess(task));
      woken := woken - {task};
      if activeTransition.Some? {
        transitionReleaseWaiters := transitionReleaseWaiters + {task};
        return None;
      }
      var reserved := ReserveLocalLease();
      lease := Some(reserved);
    }
  }
}
