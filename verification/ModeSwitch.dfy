/** The gate of switchMode: barrier, drained outbox and session rotation together. */
module ModeSwitch {
  import opened LocalTables
  import opened Repository
  import opened Device
  import opened InOrder
  import opened MutationBarrier

  /** How far a switchMode call, named by its transition, got. `exempt`: the sync failed because
      the Sandbox was disabled and the switch leaves it. */
  datatype Gate = Synced(exempt: bool) | Counted(exempt: bool) | Rotated(exempt: bool)

  /** The barrier, the old scope's device and the running switches. */
  datatype System = System(barrier: Barrier, device: Device, gates: map<nat, Gate>)

  const NEW_SYSTEM := System(OPEN_BARRIER, NEW_DEVICE, map[])

  datatype SystemStep =
    | OnBarrier(action: BarrierStep)
    | UnderLease(lease: nat, work: Step)
    | InBackground(work: Step)
    | SwitchSync(t: nat, exempt: bool)
    | SwitchCount(t: nat)
    | SwitchRotate(t: nat)

  /** The local mutations and the revalidation of quarantined operations, which take a lease. */
  predicate NeedsLease(step: Step) {
    step.DoEdit? || step.DoDiscard? || step.DoResolve? || step.DoRelease? || step.DoStorePackage?
  }

  predicate HoldsTransition(b: Barrier, t: nat) {
    t < |b.transitions| && b.transitions[t] == Granted
  }

  predicate Counts(op: Op) {
    op.Unsettled() && op.quarantine.None?
  }

  function CountPendingOutbox(ops: seq<Op>): (count: nat)
    ensures count == 0 <==> forall i :: 0 <= i < |ops| ==> !Counts(ops[i])
  {
    if ops == [] then 0 else (if Counts(ops[0]) then 1 else 0) + CountPendingOutbox(ops[1..])
  }

  function NextSystem(s: System, step: SystemStep): System {
    match step
    case OnBarrier(action) => s.(barrier := NextBarrier(s.barrier, action))
    case UnderLease(lease, work) =>
      if IsHeld(s.barrier, lease) && NeedsLease(work) then s.(device := Next(s.device, work)) else s
    case InBackground(work) => if NeedsLease(work) then s else s.(device := Next(s.device, work))
    case SwitchSync(t, exempt) =>
      if HoldsTransition(s.barrier, t) && t !in s.gates then s.(gates := s.gates[t := Gate.Synced(exempt)]) else s
    case SwitchCount(t) =>
      if HoldsTransition(s.barrier, t) && t in s.gates && s.gates[t].Synced?
         && (s.gates[t].exempt || CountPendingOutbox(s.device.db.ops) == 0)
      then s.(gates := s.gates[t := Counted(s.gates[t].exempt)]) else s
    case SwitchRotate(t) =>
      if HoldsTransition(s.barrier, t) && t in s.gates && s.gates[t].Counted?
      then s.(gates := s.gates[t := Rotated(s.gates[t].exempt)]) else s
  }

  function RunSystem(s: System, steps: seq<SystemStep>): System
    decreases |steps|
  {
    if steps == [] then s else NextSystem(RunSystem(s, steps[..|steps| - 1]), steps[|steps| - 1])
  }

  /** Nothing of the old scope still has to be sent or decided. */
  ghost predicate Clear(ops: seq<Op>) {
    forall i :: 0 <= i < |ops| ==> !Counts(ops[i])
  }

  lemma {:induction false} ChangesStayClear(db: Db, changes: seq<Change>, now: Time)
    requires Clear(db.ops)
    ensures Clear(ApplyChanges(db, changes, now).ops)
    decreases |changes|
  {
    if changes != [] {
      ApplyChangeOps(db, changes[0], now);
      ChangesStayClear(ApplyChange(db, changes[0], now), changes[1..], now);
    }
  }

  lemma MarkStaysClear(d: Device, step: Step)
    requires Ordered(d) && Clear(d.db.ops) && step.DoMark?
    ensures Clear(Next(d, step).db.ops)
  {
    if step.op in d.inFlight {
      var result := Interpret(d.db, step.op, step.answer);
      MarkShape(d.db, step.op, result, step.now);
      MarkWritesRows(d.db, step.op, result, step.now);
      MarkedStaysClear(d.db.ops, Mark(d.db, step.op, result, step.now).ops, step.op, CascadeMessage(result));
    }
  }

  lemma MarkedStaysClear(ops: seq<Op>, later: seq<Op>, i: OpId, message: string)
    requires i < |ops| && ops[i].Unsent() && Clear(ops) && MarkRows(ops, later, i, message)
    ensures Clear(later)
  {
    assert !Counts(ops[i]);
    forall j | 0 <= j < |later| ensures !Counts(later[j]) { assert !Counts(ops[j]); }
  }

  /** Without a local mutation no row joins the counted ones: rows are only settled or frozen. */
  lemma BackgroundStaysClear(d: Device, step: Step)
    requires Ordered(d) && Clear(d.db.ops) && !NeedsLease(step)
    ensures Clear(Next(d, step).db.ops)
  {
    if step.DoMark? { MarkStaysClear(d, step); }
    else if step.DoPullPage? {
      if d.pull.Some? {
        var page := PullPage(d.log, d.pull.value, step.limit);
        ChangesStayClear(d.db, Changes(d.log[page.start..page.end]), step.now);
      }
    } else if step.DoQuarantine? {
      assert forall j :: 0 <= j < |d.db.ops| ==> !Counts(d.db.ops[j]);
    }
  }

  ghost predicate Passed(s: System, t: nat) {
    HoldsTransition(s.barrier, t) && t in s.gates && !s.gates[t].Synced? && !s.gates[t].exempt
  }

  ghost predicate GatesHold(s: System) {
    && Guarded(s.barrier)
    && Ordered(s.device)
    && (forall t :: t in s.gates ==>
       t < |s.barrier.transitions| && (s.barrier.transitions[t] == Granted || s.barrier.transitions[t] == Released))
    && (forall t :: Passed(s, t) ==> Clear(s.device.db.ops))
  }

  lemma BarrierHoldsGates(s: System, step: BarrierStep)
    requires GatesHold(s)
    ensures GatesHold(NextSystem(s, OnBarrier(step)))
  {
    StepIsGuarded(s.barrier, step);
    forall t | t in s.gates ensures
      var next := NextBarrier(s.barrier, step);
      t < |next.transitions| && (next.transitions[t] == s.barrier.transitions[t] || next.transitions[t] == Released)
    {
      GrantedOnce(s.barrier, step, t);
    }
    GrantedGatesHold(s, NextBarrier(s.barrier, step));
  }

  lemma GrantedGatesHold(s: System, barrier: Barrier)
    requires GatesHold(s) && Guarded(barrier)
    requires forall t :: t in s.gates ==>
      t < |barrier.transitions|
        && (barrier.transitions[t] == s.barrier.transitions[t] || barrier.transitions[t] == Released)
    ensures GatesHold(s.(barrier := barrier))
  {
    forall t: nat | Passed(s.(barrier := barrier), t) ensures Passed(s, t) {
    }
  }

  /** A held transition leaves no local lease to work under. */
  lemma DeviceHoldsGates(s: System, step: Step)
    requires GatesHold(s) && (NeedsLease(step) ==> exists lease :: IsHeld(s.barrier, lease))
    ensures GatesHold(s.(device := Next(s.device, step)))
  {
    var next := s.(device := Next(s.device, step));
    StepKeepsOrder(s.device, step);
    forall t: nat | Passed(next, t) ensures Clear(next.device.db.ops) {
      assert Passed(s, t);
      assert Held(s.barrier) == {};
      assert forall lease :: IsHeld(s.barrier, lease) ==> lease in Held(s.barrier);
      BackgroundStaysClear(s.device, step);
    }
  }

  lemma StepHoldsGates(s: System, step: SystemStep)
    requires GatesHold(s)
    ensures GatesHold(NextSystem(s, step))
  {
    var next := NextSystem(s, step);
    match step
    case OnBarrier(action) => BarrierHoldsGates(s, action);
    case UnderLease(lease, work) => if IsHeld(s.barrier, lease) && NeedsLease(work) { DeviceHoldsGates(s, work); }
    case InBackground(work) => if !NeedsLease(work) { DeviceHoldsGates(s, work); }
    case _ =>
      forall t: nat | Passed(next, t) ensures Clear(next.device.db.ops) {
        assert t != step.t ==> Passed(s, t);
        assert t == step.t ==> Passed(s, t) || CountPendingOutbox(s.device.db.ops) == 0;
      }
  }

  lemma {:induction false} RunsHoldGates(steps: seq<SystemStep>)
    ensures GatesHold(RunSystem(NEW_SYSTEM, steps))
    decreases |steps|
  {
    if steps == [] {
      RunsAreGuarded([]);
    } else {
      RunsHoldGates(steps[..|steps| - 1]);
      StepHoldsGates(RunSystem(NEW_SYSTEM, steps[..|steps| - 1]), steps[|steps| - 1]);
    }
  }

  /** At the moment a switch rotates the session, and until its lease is released, the old scope has
      no unsettled operation outside quarantine, no local lease is held, and the next step, whatever
      it is, adds no operation and lets none count again; only the exit from a disabled Sandbox is
      exempt. */
  lemma RotationFindsOutboxEmpty(steps: seq<SystemStep>, t: nat, more: SystemStep)
    requires var s := RunSystem(NEW_SYSTEM, steps);
      HoldsTransition(s.barrier, t) && t in s.gates && s.gates[t] == Rotated(false)
    ensures var s := RunSystem(NEW_SYSTEM, steps);
      && Held(s.barrier) == {} && s.barrier.count == 0
      && CountPendingOutbox(s.device.db.ops) == 0
      && CountPendingOutbox(NextSystem(s, more).device.db.ops) == 0
      && |NextSystem(s, more).device.db.ops| == |s.device.db.ops|
  {
    var s := RunSystem(NEW_SYSTEM, steps);
    RunsHoldGates(steps);
    assert Passed(s, t);
    StepAddsNothing(s, t, more);
  }

  lemma StepAddsNothing(s: System, t: nat, step: SystemStep)
    requires GatesHold(s) && Passed(s, t)
    ensures Clear(NextSystem(s, step).device.db.ops) && |NextSystem(s, step).device.db.ops| == |s.device.db.ops|
  {
    assert Held(s.barrier) == {};
    assert forall lease :: IsHeld(s.barrier, lease) ==> lease in Held(s.barrier);
    if step.InBackground? && !NeedsLease(step.work) {
      BackgroundStaysClear(s.device, step.work);
      BackgroundAddsNothing(s.device, step.work);
    }
  }

  lemma BackgroundAddsNothing(d: Device, step: Step)
    requires Ordered(d) && !NeedsLease(step)
    ensures |Next(d, step).db.ops| == |d.db.ops|
  {
    if step.DoMark? {
      if step.op in d.inFlight { MarkShape(d.db, step.op, Interpret(d.db, step.op, step.answer), step.now); }
    } else if step.DoPullPage? && d.pull.Some? {
      var page := PullPage(d.log, d.pull.value, step.limit);
      ApplyChangesQuiet(d.db, Changes(d.log[page.start..page.end]), step.now);
    }
  }


  /** A switch that has synchronized and holds its lease passes the gate exactly if it is exempt or
      every unsettled operation of the old scope is quarantined. */
  lemma GateOpensExactly(s: System, t: nat)
    requires HoldsTransition(s.barrier, t) && t in s.gates && s.gates[t].Synced?
    ensures var gates := NextSystem(s, SwitchCount(t)).gates;
      && (gates == s.gates || gates == s.gates[t := Counted(s.gates[t].exempt)])
      && (gates[t].Counted? <==> s.gates[t].exempt || forall i :: 0 <= i < |s.device.db.ops| ==>
            s.device.db.ops[i].Unsettled() ==> s.device.db.ops[i].quarantine.Some?)
  {
    assert forall i :: 0 <= i < |s.device.db.ops| ==>
      (Counts(s.device.db.ops[i]) <==> s.device.db.ops[i].Unsettled() && s.device.db.ops[i].quarantine.None?);
  }

  const SWITCH := [
    OnBarrier(BeginTransition), OnBarrier(ResumeTransition(0)), SwitchSync(0, false), SwitchCount(0), SwitchRotate(0)]

  lemma SystemNext(steps: seq<SystemStep>, n: nat)
    requires n < |steps|
    ensures RunSystem(NEW_SYSTEM, steps[..n + 1]) == NextSystem(RunSystem(NEW_SYSTEM, steps[..n]), steps[n])
  {
    assert steps[..n + 1][..n] == steps[..n];
  }

  /** From an empty outbox a switch goes through. */
  lemma EmptyOutboxSwitches()
    ensures RunSystem(NEW_SYSTEM, SWITCH).gates == map[0 := Rotated(false)]
  {
    SystemNext(SWITCH, 0);
    SystemNext(SWITCH, 1);
    SystemNext(SWITCH, 2);
    SystemNext(SWITCH, 3);
    SystemNext(SWITCH, 4);
    assert SWITCH[..5] == SWITCH && SWITCH[..0] == [];
  }
}
