/** What an attempt of the Sandbox recovery has done, stage by stage: the one-time switch is posted
    exactly once by every attempt that gets far enough, and always in the same place. */
module RecoveryDeeds {
  import opened LocalTables
  import opened SandboxRecovery

  /** Hide the app, wipe the local database, post the switch, store the new session. */
  const PLAN := [HideMode, WipeDatabase, PostSwitch, StoreSession]

  /** What the attempt has done, in order. */
  function Deeds(acts: seq<Act>, id: EntryId): seq<Deed> {
    if acts == [] then []
    else
      var last := acts[|acts| - 1];
      Deeds(acts[..|acts| - 1], id) + if last.entry == id then [last.deed] else []
  }

  lemma DeedsOfOne(acts: seq<Act>, act: Act, id: EntryId)
    ensures Deeds(acts + [act], id) == Deeds(acts, id) + if act.entry == id then [act.deed] else []
  {
    assert (acts + [act])[..|acts|] == acts;
  }

  lemma DeedsOfTwo(acts: seq<Act>, first: Act, second: Act, id: EntryId)
    requires first.entry == second.entry
    ensures Deeds(acts + [first, second], id)
      == if first.entry == id then Deeds(acts, id) + [first.deed, second.deed] else Deeds(acts, id)
  {
    assert acts + [first, second] == acts + [first] + [second];
    DeedsOfOne(acts, first, id);
    DeedsOfOne(acts + [first], second, id);
  }

  lemma {:induction false} NoDeedsYet(acts: seq<Act>, id: EntryId)
    requires forall a :: 0 <= a < |acts| ==> acts[a].entry != id
    ensures Deeds(acts, id) == []
    decreases |acts|
  {
    if acts != [] { NoDeedsYet(acts[..|acts| - 1], id); }
  }

  /** What an attempt that waits in the stage must have done: a failed one stopped somewhere on the
      way and closed the session; one that never started did nothing. */
  ghost predicate Expected(stage: Stage, deeds: seq<Deed>) {
    match stage
    case Acquiring => deeds == []
    case Withdrawn => deeds == []
    case Clearing => deeds == [HideMode, WipeDatabase]
    case Posting => deeds == [HideMode, WipeDatabase, PostSwitch]
    case HandingOver => deeds == PLAN
    case Exposing => deeds == PLAN
    case Noticing => deeds == PLAN
    case Failing => exists n :: 2 <= n <= 4 && deeds == PLAN[..n] + [FailClosed]
  }

  ghost predicate OnPlan(r: Recovery) {
    forall id :: 0 <= id < |r.entries| ==> Expected(r.entries[id].stage, Deeds(r.acts, id))
  }

  /** An entry moves and does one thing more, or nothing. */
  lemma MoveIsOnPlan(r: Recovery, id: EntryId, next: Entry, act: Option<Deed>)
    requires OnPlan(r) && id < |r.entries|
    requires Expected(next.stage, Deeds(r.acts, id) + if act.Some? then [act.value] else [])
    ensures OnPlan(r.(entries := r.entries[id := next], acts := r.acts + if act.Some? then [Act(id, act.value)]
      else []))
  {
    if act.Some? {
      forall i | 0 <= i < |r.entries|
        ensures Expected(r.entries[id := next][i].stage, Deeds(r.acts + [Act(id, act.value)], i))
      {
        DeedsOfOne(r.acts, Act(id, act.value), i);
      }
    } else {
      assert r.acts + [] == r.acts && Deeds(r.acts, id) + [] == Deeds(r.acts, id);
    }
  }

  lemma StartIsOnPlan(r: Recovery, entries: seq<Entry>, id: EntryId)
    requires OnPlan(r) && |r.entries| <= |entries| && id < |entries| && entries[id].stage == Clearing
    requires forall i :: 0 <= i < |entries| && i != id ==> i < |r.entries| && entries[i].stage == r.entries[i].stage
    requires Deeds(r.acts, id) == []
    ensures OnPlan(r.(entries := entries, acts := r.acts + [Act(id, HideMode), Act(id, WipeDatabase)]))
  {
    forall i | 0 <= i < |entries|
      ensures Expected(entries[i].stage, Deeds(r.acts + [Act(id, HideMode), Act(id, WipeDatabase)], i))
    {
      DeedsOfTwo(r.acts, Act(id, HideMode), Act(id, WipeDatabase), i);
    }
  }

  lemma IdleIsOnPlan(r: Recovery, next: Recovery, entry: Entry)
    requires OnPlan(r) && next.entries == r.entries + [entry] && next.acts == r.acts
    requires entry.stage in {Acquiring, Withdrawn} && Deeds(r.acts, |r.entries|) == []
    ensures OnPlan(next)
  {
    forall id | 0 <= id < |next.entries| ensures Expected(next.entries[id].stage, Deeds(next.acts, id)) {
      if id < |r.entries| { assert next.entries[id] == r.entries[id]; }
    }
  }

  lemma CreateIsOnPlan(r: Recovery, session: SessionId, target: Mode, callback: Option<Callback>, lease: LeaseArg)
    requires Harmless(r) && OnPlan(r)
    ensures OnPlan(SandboxRecovery.Create(r, session, target, callback, lease))
  {
    var next, id := SandboxRecovery.Create(r, session, target, callback, lease), |r.entries|;
    NoDeedsYet(r.acts, id);
    if next.entries[id].stage == Clearing {
      StartIsOnPlan(r, next.entries, id);
    } else {
      IdleIsOnPlan(r, next, next.entries[id]);
    }
  }

  lemma RecoverIsOnPlan(r: Recovery, session: SessionId, target: Mode, callback: Option<Callback>, lease: LeaseArg)
    requires Harmless(r) && OnPlan(r)
    ensures OnPlan(Recover(r, session, target, callback, lease))
  {
    if session !in r.current || r.current[session] >= |r.entries| {
      CreateIsOnPlan(r, session, target, callback, lease);
    }
  }

  lemma AnswerIsOnPlan(r: Recovery, id: EntryId, granted: bool)
    requires OnPlan(r)
    ensures OnPlan(AnswerBarrier(r, id, granted))
  {
    if id < |r.entries| && r.entries[id].stage == Acquiring {
      if granted { StartIsOnPlan(r, AnswerBarrier(r, id, granted).entries, id); }
    }
  }

  lemma FailIsOnPlan(r: Recovery, id: EntryId)
    requires OnPlan(r) && id < |r.entries|
    requires r.entries[id].stage in {Clearing, Posting, HandingOver, Exposing}
    ensures OnPlan(Fail(r, id))
  {
    var n := if r.entries[id].stage == Clearing then 2 else if r.entries[id].stage == Posting then 3 else 4;
    assert PLAN[..2] == [HideMode, WipeDatabase] && PLAN[..3] == [HideMode, WipeDatabase, PostSwitch];
    assert Deeds(r.acts, id) + [FailClosed] == PLAN[..n] + [FailClosed];
    MoveIsOnPlan(r, id, r.entries[id].(stage := Failing), Some(FailClosed));
  }

  lemma EndStageIsOnPlan(r: Recovery, id: EntryId, ok: bool)
    requires OnPlan(r)
    ensures OnPlan(EndStage(r, id, ok))
  {
    if id < |r.entries| {
      var entry := r.entries[id];
      if entry.stage in {Clearing, Posting, HandingOver, Exposing} {
        if !ok { FailIsOnPlan(r, id); }
        else if entry.stage == Clearing { MoveIsOnPlan(r, id, entry.(stage := Posting), Some(PostSwitch)); }
        else if entry.stage == Posting { MoveIsOnPlan(r, id, entry.(stage := HandingOver), Some(StoreSession)); }
        else { MoveIsOnPlan(r, id, Splice(entry), None); }
      }
    }
  }

  lemma StepIsOnPlan(r: Recovery, step: RecoveryStep)
    requires Harmless(r) && OnPlan(r)
    ensures OnPlan(NextRecovery(r, step))
  {
    match step
    case Call(session, _, target, callback, lease) => RecoverIsOnPlan(r, session, target, callback, lease);
    case BarrierAnswers(id, granted) => AnswerIsOnPlan(r, id, granted);
    case StageEnds(id, ok) => EndStageIsOnPlan(r, id, ok);
    case Settle(id) =>
    case HeirWakes(h, active) =>
      if h < |r.heirs| {
        var heir := r.heirs[h];
        var woken := r.(heirs := r.heirs[h := heir.(waiting := false)]);
        RecoverIsOnPlan(Forget(woken, heir.session, heir.on), heir.session, heir.target, heir.callback, Lease(active));
      }
  }

  // ----- the theorems -----

  /** Over every interleaving, what an attempt has done is exactly what its stage asks for. */
  lemma {:induction false} DeedsFollowStages(steps: seq<RecoveryStep>)
    ensures OnPlan(RunRecovery(NO_RECOVERY, steps))
    decreases |steps|
  {
    if steps != [] {
      RunsAreSound(steps[..|steps| - 1]);
      DeedsFollowStages(steps[..|steps| - 1]);
      StepIsOnPlan(RunRecovery(NO_RECOVERY, steps[..|steps| - 1]), steps[|steps| - 1]);
    }
  }

  /** A successful attempt has hidden the app, wiped the database, posted the one-time switch and
      stored the session, each once and in this order. One whose promise rejected has either done
      nothing, or stopped on that way and closed the session. */
  lemma SettledAttempts(steps: seq<RecoveryStep>, id: EntryId)
    requires id < |RunRecovery(NO_RECOVERY, steps).entries|
    ensures var r := RunRecovery(NO_RECOVERY, steps);
      && (r.entries[id].promise == Fulfilled ==> Deeds(r.acts, id) == PLAN)
      && (r.entries[id].promise == Promise.Rejected ==>
            Deeds(r.acts, id) == []
            || exists n :: 2 <= n <= 4 && Deeds(r.acts, id) == PLAN[..n] + [FailClosed])
  {
    RunsAreSound(steps);
    DeedsFollowStages(steps);
    assert Expected(RunRecovery(NO_RECOVERY, steps).entries[id].stage, Deeds(RunRecovery(NO_RECOVERY, steps).acts, id));
  }

  /** A lease owner stops waiting as soon as it wakes after the attempt it waited for has settled. */
  lemma WakeSettles(steps: seq<RecoveryStep>, h: nat, active: bool)
    requires var r := RunRecovery(NO_RECOVERY, steps);
      h < |r.heirs| && r.heirs[h].on < |r.entries| && r.entries[r.heirs[h].on].promise != Unsettled
    ensures var next := NextRecovery(RunRecovery(NO_RECOVERY, steps), HeirWakes(h, active));
      h < |next.heirs| && !next.heirs[h].waiting
  {
  }

  /** A recovery that nothing disturbs. */
  function Undisturbed(session: SessionId, target: Mode): seq<RecoveryStep> {
    [Call(session, true, target, None, NoLease), BarrierAnswers(0, true), StageEnds(0, true), StageEnds(0, true),
      StageEnds(0, true), Settle(0)]
  }

  lemma NextAfter(steps: seq<RecoveryStep>, n: nat)
    requires n < |steps|
    ensures RunRecovery(NO_RECOVERY, steps[..n + 1]) == NextRecovery(RunRecovery(NO_RECOVERY, steps[..n]), steps[n])
  {
    assert steps[..n + 1][..n] == steps[..n];
  }

  /** One attempt, in the stage, whose promise nobody has settled. */
  predicate Alone(r: Recovery, stage: Stage) {
    |r.entries| == 1 && r.entries[0].stage == stage && r.entries[0].promise == Unsettled && r.entries[0].callbacks == []
  }

  lemma SwitchPosted(session: SessionId, target: Mode)
    ensures Alone(RunRecovery(NO_RECOVERY, Undisturbed(session, target)[..3]), Posting)
  {
    NextAfter(Undisturbed(session, target), 0);
    NextAfter(Undisturbed(session, target), 1);
    NextAfter(Undisturbed(session, target), 2);
  }

  lemma LastStages(r: Recovery)
    requires Alone(r, Posting)
    ensures var last := SettleEntry(EndStage(EndStage(r, 0, true), 0, true), 0);
      |last.entries| == 1 && last.entries[0].promise == Fulfilled
  {
    assert Alone(EndStage(r, 0, true), HandingOver);
    assert Alone(EndStage(EndStage(r, 0, true), 0, true), Noticing);
  }

  lemma FulfilledAtEnd(steps: seq<RecoveryStep>)
    requires |steps| == 6 && steps[3] == steps[4] == StageEnds(0, true) && steps[5] == Settle(0)
    requires Alone(RunRecovery(NO_RECOVERY, steps[..3]), Posting)
    ensures var r := RunRecovery(NO_RECOVERY, steps); |r.entries| == 1 && r.entries[0].promise == Fulfilled
  {
    NextAfter(steps, 3);
    NextAfter(steps, 4);
    NextAfter(steps, 5);
    LastStages(RunRecovery(NO_RECOVERY, steps[..3]));
    assert steps[..6] == steps;
  }

  /** It succeeds. */
  lemma UndisturbedSucceeds(session: SessionId, target: Mode)
    ensures var r := RunRecovery(NO_RECOVERY, Undisturbed(session, target));
      |r.entries| == 1 && r.entries[0].promise == Fulfilled && Deeds(r.acts, 0) == PLAN
  {
    SwitchPosted(session, target);
    FulfilledAtEnd(Undisturbed(session, target));
    SettledAttempts(Undisturbed(session, target), 0);
  }
}
