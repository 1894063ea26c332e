/** Recovery of a retired Sandbox generation: one shared attempt per retired session, whose
    one-time server rotation must never be posted twice. Every synchronous stretch between two
    awaits is one step; callers, attempts and their heirs interleave freely. */
module SandboxRecovery {
  import opened LocalTables

  type SessionId = string
  type EntryId = nat
  type Callback = nat

  datatype Mode = Production | Sandbox

  datatype Phase = Recovering | Callbacks | Settled

  /** Where performRetiredSandboxRecovery of an entry waits: for the barrier; for the local
      database to be wiped; for the server's answer; for the replacement scope; for callbacks;
      for the notice; or it has left by an exception before or after starting. */
  datatype Stage = Acquiring | Clearing | Posting | HandingOver | Exposing | Noticing | Withdrawn | Failing

  datatype Promise = Unsettled | Fulfilled | Rejected

  /** `registered` and `ran` record, in order, the callbacks ever accepted and ever called. */
  datatype Entry = Entry(
    session: SessionId,
    target: Mode,
    callbacks: seq<Callback>,
    phase: Phase,
    started: bool,
    stage: Stage,
    promise: Promise,
    registered: seq<Callback>,
    ran: seq<Callback>)

  /** A lease owner that waits for a harmless attempt to reject before it takes over. */
  datatype Heir = Heir(session: SessionId, target: Mode, callback: Option<Callback>, on: EntryId, waiting: bool)

  /** Everything an attempt does to session, database or server. */
  datatype Deed = HideMode | WipeDatabase | PostSwitch | StoreSession | FailClosed
  datatype Act = Act(entry: EntryId, deed: Deed)

  datatype Recovery = Recovery(current: map<SessionId, EntryId>, entries: seq<Entry>, heirs: seq<Heir>, acts: seq<Act>)

  const NO_RECOVERY := Recovery(map[], [], [], [])

  /** `Lease(active)`: the caller passes a transition lease, and whether it is the active one. */
  datatype LeaseArg = NoLease | Lease(active: bool)

  datatype RecoveryStep =
    | Call(session: SessionId, sandbox: bool, target: Mode, callback: Option<Callback>, lease: LeaseArg)
    | BarrierAnswers(entry: EntryId, granted: bool)
    | StageEnds(entry: EntryId, ok: bool)
    | Settle(entry: EntryId)
    | HeirWakes(heir: nat, active: bool)

  function Create(r: Recovery, session: SessionId, target: Mode, callback: Option<Callback>,
      lease: LeaseArg): Recovery {
    var id := |r.entries|;
    var first := if callback.Some? then [callback.value] else [];
    var stage := if lease.NoLease? then Acquiring else if lease.active then Clearing else Withdrawn;
    Recovery(
      r.current[session := id],
      r.entries + [Entry(session, target, first, Recovering, stage == Clearing, stage, Unsettled, first, [])],
      r.heirs,
      if stage == Clearing then r.acts + [Act(id, HideMode), Act(id, WipeDatabase)] else r.acts)
  }

  function Recover(r: Recovery, session: SessionId, target: Mode, callback: Option<Callback>,
      lease: LeaseArg): Recovery {
    if session !in r.current || r.current[session] >= |r.entries| then Create(r, session, target, callback, lease)
    else
      var id := r.current[session];
      var existing := r.entries[id];
      if lease.Lease? && !existing.started then r.(heirs := r.heirs + [Heir(session, target, callback, id, true)])
      else if existing.target != target then r
      else if callback.Some? && existing.phase == Recovering then
        r.(entries := r.entries[id := existing.(
          callbacks := existing.callbacks + [callback.value],
          registered := existing.registered + [callback.value])])
      else r
  }

  function AnswerBarrier(r: Recovery, id: EntryId, granted: bool): Recovery {
    if id >= |r.entries| || r.entries[id].stage != Acquiring then r
    else if granted then
      r.(entries := r.entries[id := r.entries[id].(started := true, stage := Clearing)],
        acts := r.acts + [Act(id, HideMode), Act(id, WipeDatabase)])
    else
      var withdrawn := r.(entries := r.entries[id := r.entries[id].(stage := Withdrawn)]);
      Forget(withdrawn, r.entries[id].session, id)
  }

  function Forget(r: Recovery, session: SessionId, id: EntryId): Recovery {
    if session in r.current && r.current[session] == id then r.(current := r.current - {session}) else r
  }

  /** One round of the callback loop: take all of them off the list and call each. */
  function Splice(entry: Entry): Entry {
    if entry.callbacks == [] then entry.(phase := Callbacks, stage := Noticing)
    else entry.(phase := Callbacks, stage := Exposing, callbacks := [], ran := entry.ran + entry.callbacks)
  }

  function EndStage(r: Recovery, id: EntryId, ok: bool): Recovery {
    if id >= |r.entries| then r
    else
      var entry := r.entries[id];
      match entry.stage
      case Clearing =>
        if ok then r.(entries := r.entries[id := entry.(stage := Posting)], acts := r.acts + [Act(id, PostSwitch)])
        else Fail(r, id)
      case Posting =>
        if ok then
          r.(entries := r.entries[id := entry.(stage := HandingOver)], acts := r.acts + [Act(id, StoreSession)])
        else Fail(r, id)
      case HandingOver => if ok then r.(entries := r.entries[id := Splice(entry)]) else Fail(r, id)
      case Exposing => if ok then r.(entries := r.entries[id := Splice(entry)]) else Fail(r, id)
      case _ => r
  }

  function Fail(r: Recovery, id: EntryId): Recovery
    requires id < |r.entries|
  {
    r.(entries := r.entries[id := r.entries[id].(stage := Failing)], acts := r.acts + [Act(id, FailClosed)])
  }

  function SettleEntry(r: Recovery, id: EntryId): Recovery {
    if id >= |r.entries| || r.entries[id].promise != Unsettled then r
    else
      var entry := r.entries[id];
      if entry.stage == Noticing then r.(entries := r.entries[id := entry.(phase := Settled, promise := Fulfilled)])
      else if entry.stage == Withdrawn || entry.stage == Failing then
        r.(entries := r.entries[id := entry.(phase := Settled, promise := Promise.Rejected)])
      else r
  }

  function WakeHeir(r: Recovery, h: nat, active: bool): Recovery {
    if h >= |r.heirs| || !r.heirs[h].waiting || r.heirs[h].on >= |r.entries| then r
    else
      var heir := r.heirs[h];
      var woken := r.(heirs := r.heirs[h := heir.(waiting := false)]);
      match r.entries[heir.on].promise
      case Unsettled => r
      case Fulfilled => woken
      case Rejected =>
        if r.entries[heir.on].started then woken
        else Recover(Forget(woken, heir.session, heir.on), heir.session, heir.target, heir.callback, Lease(active))
  }

  function NextRecovery(r: Recovery, step: RecoveryStep): Recovery {
    match step
    case Call(session, sandbox, target, callback, lease) =>
      if sandbox then Recover(r, session, target, callback, lease) else r
    case BarrierAnswers(id, granted) => AnswerBarrier(r, id, granted)
    case StageEnds(id, ok) => EndStage(r, id, ok)
    case Settle(id) => SettleEntry(r, id)
    case HeirWakes(h, active) => WakeHeir(r, h, active)
  }

  function RunRecovery(r: Recovery, steps: seq<RecoveryStep>): Recovery
    decreases |steps|
  {
    if steps == [] then r else NextRecovery(RunRecovery(r, steps[..|steps| - 1]), steps[|steps| - 1])
  }

  // ----- what every step keeps -----

  /** One entry's own bookkeeping. */
  ghost predicate Coherent(entry: Entry) {
    && (entry.started <==> entry.stage != Acquiring && entry.stage != Withdrawn)
    && (entry.phase == Recovering ==> entry.ran == [] && entry.callbacks == entry.registered)
    && (entry.stage == Exposing || entry.stage == Noticing ==>
          entry.phase != Recovering && entry.callbacks == [] && entry.ran == entry.registered)
    && (entry.stage == Acquiring || entry.stage == Clearing || entry.stage == Posting || entry.stage == HandingOver ==>
          entry.phase == Recovering)
    && (entry.promise == Unsettled <==> entry.phase != Settled)
    && (entry.promise == Fulfilled ==> entry.stage == Noticing)
    && (entry.promise == Promise.Rejected ==> entry.stage == Withdrawn || entry.stage == Failing)
    && (entry.stage == Failing ==> entry.ran == [] || entry.ran == entry.registered)
  }

  predicate IsCurrent(r: Recovery, id: EntryId) {
    id < |r.entries| && r.entries[id].session in r.current && r.current[r.entries[id].session] == id
  }

  /** Only an attempt that withdrew before starting can ever leave the table. */
  ghost predicate Single(r: Recovery) {
    && (forall id :: 0 <= id < |r.entries| ==> Coherent(r.entries[id]))
    && (forall session :: session in r.current ==>
       IsCurrent(r, r.current[session]) && r.entries[r.current[session]].session == session)
    && (forall id :: 0 <= id < |r.entries| && r.entries[id].stage != Withdrawn ==> IsCurrent(r, id))
    && (forall h :: 0 <= h < |r.heirs| ==>
       r.heirs[h].on < |r.entries| && r.entries[r.heirs[h].on].session == r.heirs[h].session)
  }

  /** Nothing is ever done by an attempt that has not started, and each posts once. */
  ghost predicate Harmless(r: Recovery) {
    && (forall a :: 0 <= a < |r.acts| ==> r.acts[a].entry < |r.entries| && r.entries[r.acts[a].entry].started)
    && (forall a :: 0 <= a < |r.acts| && r.acts[a].deed == PostSwitch ==> r.entries[r.acts[a].entry].stage != Clearing)
    && (forall a, b :: 0 <= a < b < |r.acts| && r.acts[a].deed == PostSwitch && r.acts[b].deed == PostSwitch ==>
          r.acts[a].entry != r.acts[b].entry)
  }

  /** An entry's move to its next state: it stays what it is and never comes back from withdrawal. */
  ghost predicate Moves(entry: Entry, next: Entry) {
    && Coherent(next) && next.session == entry.session
    && (entry.started ==> next.started)
    && (entry.stage == Withdrawn ==> next.stage == Withdrawn)
    && (entry.stage != Clearing && entry.started ==> next.stage != Clearing)
  }

  lemma EntryMoves(entry: Entry)
    requires Coherent(entry)
    ensures entry.stage == Acquiring
      ==> Moves(entry, entry.(started := true, stage := Clearing)) && Moves(entry, entry.(stage := Withdrawn))
    ensures entry.started && entry.stage != Noticing && entry.promise == Unsettled
      ==> Moves(entry, entry.(stage := Failing))
    ensures entry.stage == Clearing ==> Moves(entry, entry.(stage := Posting))
    ensures entry.stage == Posting ==> Moves(entry, entry.(stage := HandingOver))
    ensures entry.stage == HandingOver || (entry.stage == Exposing && entry.promise == Unsettled)
      ==> Moves(entry, Splice(entry))
    ensures entry.promise == Unsettled && entry.stage == Noticing
      ==> Moves(entry, entry.(phase := Settled, promise := Fulfilled))
    ensures entry.promise == Unsettled && (entry.stage == Withdrawn || entry.stage == Failing) ==>
      Moves(entry, entry.(phase := Settled, promise := Promise.Rejected))
    ensures forall callback :: entry.phase == Recovering ==>
      Moves(entry, entry.(callbacks := entry.callbacks + [callback], registered := entry.registered + [callback]))
  {
  }

  lemma MoveIsSingle(r: Recovery, id: EntryId, next: Entry, acts: seq<Act>)
    requires Single(r) && id < |r.entries| && Moves(r.entries[id], next)
    ensures Single(r.(entries := r.entries[id := next], acts := acts))
  {
  }

  lemma MoveIsHarmless(r: Recovery, id: EntryId, next: Entry, more: seq<Deed>)
    requires Harmless(r) && id < |r.entries| && Moves(r.entries[id], next)
    requires more != [] ==> next.started
    requires PostSwitch in more ==> more == [PostSwitch] && r.entries[id].stage == Clearing && next.stage != Clearing
    ensures Harmless(r.(entries := r.entries[id := next], acts := r.acts + Acts(id, more)))
  {
    assert PostSwitch in more ==> forall a :: 0 <= a < |r.acts| && r.acts[a].deed == PostSwitch ==>
      r.acts[a].entry != id;
  }

  function Acts(id: EntryId, deeds: seq<Deed>): (acts: seq<Act>)
    ensures |acts| == |deeds|
    ensures forall i :: 0 <= i < |deeds| ==> acts[i] == Act(id, deeds[i])
  {
    seq(|deeds|, i requires 0 <= i < |deeds| => Act(id, deeds[i]))
  }

  ghost predicate Sound(r: Recovery) {
    Single(r) && Harmless(r)
  }

  lemma MoveIsSound(r: Recovery, id: EntryId, next: Entry, more: seq<Deed>)
    requires Sound(r) && id < |r.entries| && Moves(r.entries[id], next)
    requires more != [] ==> next.started
    requires PostSwitch in more ==> more == [PostSwitch] && r.entries[id].stage == Clearing && next.stage != Clearing
    ensures Sound(r.(entries := r.entries[id := next], acts := r.acts + Acts(id, more)))
  {
    MoveIsSingle(r, id, next, r.acts + Acts(id, more));
    MoveIsHarmless(r, id, next, more);
  }

  lemma AppendIsSingle(r: Recovery, entry: Entry, acts: seq<Act>)
    requires Single(r) && entry.session !in r.current && Coherent(entry)
    ensures Single(Recovery(r.current[entry.session := |r.entries|], r.entries + [entry], r.heirs, acts))
  {
    var next := Recovery(r.current[entry.session := |r.entries|], r.entries + [entry], r.heirs, acts);
    assert forall id :: 0 <= id < |r.entries| ==> next.entries[id] == r.entries[id];
    forall id | 0 <= id < |next.entries| && next.entries[id].stage != Withdrawn ensures IsCurrent(next, id) {
      assert id < |r.entries| ==> IsCurrent(r, id);
    }
  }

  lemma AppendIsHarmless(r: Recovery, entry: Entry, deeds: seq<Deed>, current: map<SessionId, EntryId>)
    requires Harmless(r) && (deeds != [] ==> entry.started) && PostSwitch !in deeds
    ensures Harmless(Recovery(current, r.entries + [entry], r.heirs, r.acts + Acts(|r.entries|, deeds)))
  {
    assert forall id :: 0 <= id < |r.entries| ==> (r.entries + [entry])[id] == r.entries[id];
  }

  lemma CreateIsSound(r: Recovery, session: SessionId, target: Mode, callback: Option<Callback>, lease: LeaseArg)
    requires Sound(r) && session !in r.current
    ensures Sound(Create(r, session, target, callback, lease))
  {
    var next := Create(r, session, target, callback, lease);
    var entry := next.entries[|r.entries|];
    var deeds := if entry.started then [HideMode, WipeDatabase] else [];
    assert next.acts == r.acts + Acts(|r.entries|, deeds);
    AppendIsSingle(r, entry, next.acts);
    AppendIsHarmless(r, entry, deeds, next.current);
  }

  lemma ForgetIsSound(r: Recovery, session: SessionId, id: EntryId)
    requires Sound(r) && id < |r.entries| && r.entries[id].stage == Withdrawn
    ensures Sound(Forget(r, session, id))
  {
  }

  lemma RecoverIsSound(r: Recovery, session: SessionId, target: Mode, callback: Option<Callback>, lease: LeaseArg)
    requires Sound(r)
    ensures Sound(Recover(r, session, target, callback, lease))
  {
    if session !in r.current {
      CreateIsSound(r, session, target, callback, lease);
    } else {
      var id := r.current[session];
      var existing := r.entries[id];
      EntryMoves(existing);
      if !(lease.Lease? && !existing.started) && existing.target == target && callback.Some?
        && existing.phase == Recovering {
        var next := existing.(callbacks := existing.callbacks + [callback.value],
          registered := existing.registered + [callback.value]);
        MoveIsSound(r, id, next, []);
        assert r.acts + Acts(id, []) == r.acts;
      }
    }
  }

  lemma AnswerIsSound(r: Recovery, id: EntryId, granted: bool)
    requires Sound(r)
    ensures Sound(AnswerBarrier(r, id, granted))
  {
    if id < |r.entries| && r.entries[id].stage == Acquiring {
      var entry := r.entries[id];
      EntryMoves(entry);
      if granted {
        MoveIsSound(r, id, entry.(started := true, stage := Clearing), [HideMode, WipeDatabase]);
        assert Acts(id, [HideMode, WipeDatabase]) == [Act(id, HideMode), Act(id, WipeDatabase)];
      } else {
        MoveIsSound(r, id, entry.(stage := Withdrawn), []);
        assert r.acts + Acts(id, []) == r.acts;
        ForgetIsSound(r.(entries := r.entries[id := entry.(stage := Withdrawn)]), entry.session, id);
      }
    }
  }

  lemma EndStageIsSound(r: Recovery, id: EntryId, ok: bool)
    requires Sound(r)
    ensures Sound(EndStage(r, id, ok))
  {
    if id < |r.entries| {
      var entry := r.entries[id];
      EntryMoves(entry);
      assert Acts(id, [PostSwitch]) == [Act(id, PostSwitch)] && Acts(id, [StoreSession]) == [Act(id, StoreSession)];
      assert Acts(id, [FailClosed]) == [Act(id, FailClosed)] && r.acts + Acts(id, []) == r.acts;
      if entry.stage == Clearing || entry.stage == Posting || entry.stage == HandingOver || entry.stage == Exposing {
        if !ok { MoveIsSound(r, id, entry.(stage := Failing), [FailClosed]); }
        else if entry.stage == Clearing { MoveIsSound(r, id, entry.(stage := Posting), [PostSwitch]); }
        else if entry.stage == Posting { MoveIsSound(r, id, entry.(stage := HandingOver), [StoreSession]); }
        else { MoveIsSound(r, id, Splice(entry), []); }
      }
    }
  }

  lemma SettleIsSound(r: Recovery, id: EntryId)
    requires Sound(r)
    ensures Sound(SettleEntry(r, id))
  {
    if id < |r.entries| {
      var entry := r.entries[id];
      EntryMoves(entry);
      assert r.acts + Acts(id, []) == r.acts;
      if entry.promise == Unsettled {
        if entry.stage == Noticing { MoveIsSound(r, id, entry.(phase := Settled, promise := Fulfilled), []); }
        else if entry.stage == Withdrawn || entry.stage == Failing {
          MoveIsSound(r, id, entry.(phase := Settled, promise := Promise.Rejected), []);
        }
      }
    }
  }

  lemma WakeIsSound(r: Recovery, h: nat, active: bool)
    requires Sound(r)
    ensures Sound(WakeHeir(r, h, active))
  {
    if h < |r.heirs| && r.heirs[h].waiting {
      var heir := r.heirs[h];
      var woken := r.(heirs := r.heirs[h := heir.(waiting := false)]);
      assert Sound(woken);
      if r.entries[heir.on].promise == Promise.Rejected && !r.entries[heir.on].started {
        ForgetIsSound(woken, heir.session, heir.on);
        RecoverIsSound(Forget(woken, heir.session, heir.on), heir.session, heir.target, heir.callback, Lease(active));
      }
    }
  }

  lemma StepIsSound(r: Recovery, step: RecoveryStep)
    requires Sound(r)
    ensures Sound(NextRecovery(r, step))
  {
    match step
    case Call(session, _, target, callback, lease) => RecoverIsSound(r, session, target, callback, lease);
    case BarrierAnswers(id, granted) => AnswerIsSound(r, id, granted);
    case StageEnds(id, ok) => EndStageIsSound(r, id, ok);
    case Settle(id) => SettleIsSound(r, id);
    case HeirWakes(h, active) => WakeIsSound(r, h, active);
  }

  lemma {:induction false} RunsAreSound(steps: seq<RecoveryStep>)
    ensures Sound(RunRecovery(NO_RECOVERY, steps))
    decreases |steps|
  {
    if steps != [] {
      RunsAreSound(steps[..|steps| - 1]);
      StepIsSound(RunRecovery(NO_RECOVERY, steps[..|steps| - 1]), steps[|steps| - 1]);
    }
  }

  // ----- the theorems -----

  predicate Started(r: Recovery, id: nat) { id < |r.entries| && r.entries[id].started }

  predicate Posted(r: Recovery, a: nat) { a < |r.acts| && r.acts[a].deed == PostSwitch }

  /** Over every interleaving at most one attempt per retired session ever starts, so the one-time
      switch is posted at most once per session. */
  lemma AtMostOneRotation(steps: seq<RecoveryStep>)
    ensures var r := RunRecovery(NO_RECOVERY, steps);
      && (forall i: nat, j: nat :: Started(r, i) && Started(r, j) && r.entries[i].session == r.entries[j].session ==>
           i == j)
      && (forall a: nat, b: nat ::
            Posted(r, a) && Posted(r, b) && SessionOf(r, r.acts[a]) == SessionOf(r, r.acts[b]) ==> a == b)
  {
    var r := RunRecovery(NO_RECOVERY, steps);
    RunsAreSound(steps);
    forall i: nat, j: nat | Started(r, i) && Started(r, j) && r.entries[i].session == r.entries[j].session
      ensures i == j
    {
      assert IsCurrent(r, i) && IsCurrent(r, j);
    }
    forall a: nat, b: nat | Posted(r, a) && Posted(r, b) && SessionOf(r, r.acts[a]) == SessionOf(r, r.acts[b])
      ensures a == b
    {
      assert Started(r, r.acts[a].entry) && Started(r, r.acts[b].entry);
    }
  }

  function SessionOf(r: Recovery, act: Act): Option<SessionId> {
    if act.entry < |r.entries| then Some(r.entries[act.entry].session) else None
  }

  /** An attempt that failed before starting has done nothing to session, database or server. */
  lemma FailedAttemptsDoNothing(steps: seq<RecoveryStep>, id: EntryId)
    requires var r := RunRecovery(NO_RECOVERY, steps);
      id < |r.entries| && r.entries[id].promise == Promise.Rejected && r.entries[id].stage != Failing
    ensures var r := RunRecovery(NO_RECOVERY, steps);
      !r.entries[id].started && forall a :: 0 <= a < |r.acts| ==> r.acts[a].entry != id
  {
    RunsAreSound(steps);
  }

  /** A successful attempt had called every callback registered while it was recovering exactly
      once, in order, when its shared promise resolved; nothing is registered or called later. */
  lemma {:induction false} CallbacksRunOnce(steps: seq<RecoveryStep>, more: seq<RecoveryStep>, id: EntryId)
    requires var r := RunRecovery(NO_RECOVERY, steps); id < |r.entries| && r.entries[id].promise == Fulfilled
    ensures var r, later := RunRecovery(NO_RECOVERY, steps), RunRecovery(RunRecovery(NO_RECOVERY, steps), more);
      && r.entries[id].ran == r.entries[id].registered
      && id < |later.entries| && later.entries[id] == r.entries[id]
    decreases |more|
  {
    RunsAreSound(steps);
    if more != [] {
      CallbacksRunOnce(steps, more[..|more| - 1], id);
      FulfilledStays(RunRecovery(RunRecovery(NO_RECOVERY, steps), more[..|more| - 1]), more[|more| - 1], id);
    }
  }

  lemma FulfilledStays(r: Recovery, step: RecoveryStep, id: EntryId)
    requires id < |r.entries| && Coherent(r.entries[id]) && r.entries[id].promise == Fulfilled
    ensures id < |NextRecovery(r, step).entries| && NextRecovery(r, step).entries[id] == r.entries[id]
  {
  }

  /** A lease owner that waited for a harmless attempt takes over as soon as that one has rejected,
      unless somebody else created an attempt meanwhile. */
  lemma OwnerTakesOver(steps: seq<RecoveryStep>, h: nat)
    requires var r := RunRecovery(NO_RECOVERY, steps);
      && h < |r.heirs| && r.heirs[h].waiting && r.heirs[h].on < |r.entries|
      && r.entries[r.heirs[h].on].promise == Promise.Rejected && !r.entries[r.heirs[h].on].started
      && (r.heirs[h].session in r.current ==> r.current[r.heirs[h].session] == r.heirs[h].on)
    ensures var r := RunRecovery(NO_RECOVERY, steps);
      var next := NextRecovery(r, HeirWakes(h, true));
      var id := |r.entries|;
      && IsCurrent(next, id) && next.entries[id].started && next.entries[id].target == r.heirs[h].target
      && next.entries[id].session == r.heirs[h].session
      && (r.heirs[h].callback.Some? ==> next.entries[id].registered == [r.heirs[h].callback.value])
  {
    RunsAreSound(steps);
  }

  // ----- attempts that stay in the table -----

  /** The table holds an attempt for the session that withdrew before it started. */
  predicate Stuck(r: Recovery, session: SessionId) {
    session in r.current && r.current[session] < |r.entries| && r.entries[r.current[session]].stage == Withdrawn
  }

  /** The heir of a harmless attempt wakes and asks again. */
  predicate AsksAgain(r: Recovery, step: RecoveryStep, session: SessionId) {
    && step.HeirWakes? && step.heir < |r.heirs|
    && var heir := r.heirs[step.heir];
    && heir.session == session && heir.waiting && heir.on < |r.entries|
    && r.entries[heir.on].promise == Promise.Rejected && !r.entries[heir.on].started
  }

  /** An attempt is made with a lease that is not active (any more), when the table has none. */
  predicate RefusedAtOnce(r: Recovery, step: RecoveryStep, session: SessionId) {
    && session !in r.current
    && ((step.Call? && step.sandbox && step.session == session && step.lease == Lease(false))
        || (AsksAgain(r, step, session) && !step.active))
  }

  /** A lease owner that waited for the attempt in the table replaces it. */
  predicate OwnerReplaces(r: Recovery, step: RecoveryStep, session: SessionId) {
    && AsksAgain(r, step, session) && step.active
    && session in r.current && r.current[session] == r.heirs[step.heir].on
  }

  lemma RecoverStuck(r: Recovery, own: SessionId, target: Mode, callback: Option<Callback>, lease: LeaseArg,
      session: SessionId)
    requires Sound(r)
    ensures Stuck(Recover(r, own, target, callback, lease), session)
            <==> Stuck(r, session) || (session == own && session !in r.current && lease == Lease(false))
  {
  }

  lemma ForgetStuck(r: Recovery, own: SessionId, id: EntryId, session: SessionId)
    ensures Stuck(Forget(r, own, id), session)
            <==> Stuck(r, session) && !(session == own && r.current[session] == id)
    ensures session in Forget(r, own, id).current
            <==> session in r.current && !(session == own && r.current[session] == id)
  {
  }

  lemma WakeStuck(r: Recovery, step: RecoveryStep, session: SessionId)
    requires Sound(r) && step.HeirWakes?
    ensures Stuck(NextRecovery(r, step), session)
            <==> (Stuck(r, session) && !OwnerReplaces(r, step, session)) || RefusedAtOnce(r, step, session)
  {
    if step.heir < |r.heirs| && r.heirs[step.heir].waiting {
      var heir := r.heirs[step.heir];
      if AsksAgain(r, step, heir.session) {
        var woken := r.(heirs := r.heirs[step.heir := heir.(waiting := false)]);
        var forgotten := Forget(woken, heir.session, heir.on);
        ForgetIsSound(woken, heir.session, heir.on);
        ForgetStuck(woken, heir.session, heir.on, session);
        RecoverStuck(forgotten, heir.session, heir.target, heir.callback, Lease(step.active), session);
        StuckAsHeir(r, woken, forgotten, heir, NextRecovery(r, step), step.active, session);
      }
    }
  }

  lemma StuckAsHeir(r: Recovery, woken: Recovery, forgotten: Recovery, heir: Heir, next: Recovery, active: bool,
      session: SessionId)
    requires woken == r.(heirs := woken.heirs) && heir.on < |r.entries| && r.entries[heir.on].stage == Withdrawn
    requires Stuck(forgotten, session)
      <==> Stuck(woken, session) && !(session == heir.session && woken.current[session] == heir.on)
    requires session in forgotten.current
             <==> session in woken.current && !(session == heir.session && woken.current[session] == heir.on)
    requires Stuck(next, session)
             <==> Stuck(forgotten, session) || (session == heir.session && session !in forgotten.current && !active)
    ensures Stuck(next, session)
            <==> || (Stuck(r, session) && !(active && session == heir.session && r.current[session] == heir.on))
                 || (session !in r.current && session == heir.session && !active)
  {
  }

  lemma AnswerStuck(r: Recovery, id: EntryId, granted: bool, session: SessionId)
    requires Sound(r)
    ensures Stuck(AnswerBarrier(r, id, granted), session) <==> Stuck(r, session)
  {
  }

  lemma EndStageStuck(r: Recovery, id: EntryId, ok: bool, session: SessionId)
    requires Sound(r)
    ensures Stuck(EndStage(r, id, ok), session) <==> Stuck(r, session)
  {
  }

  /** In every sound table, and so in every reachable one: an attempt is stuck after a step exactly
      if it was refused at once for its inactive lease, or was stuck before and no lease owner has
      replaced it. A refused barrier leaves nothing behind. */
  lemma StuckExactly(r: Recovery, step: RecoveryStep, session: SessionId)
    requires Sound(r)
    ensures Stuck(NextRecovery(r, step), session)
            <==> (Stuck(r, session) && !OwnerReplaces(r, step, session)) || RefusedAtOnce(r, step, session)
  {
    match step
    case Call(own, sandbox, target, callback, lease) => RecoverStuck(r, own, target, callback, lease, session);
    case BarrierAnswers(id, granted) => AnswerStuck(r, id, granted, session);
    case StageEnds(id, ok) => EndStageStuck(r, id, ok, session);
    case Settle(_) =>
    case HeirWakes(_, _) => WakeStuck(r, step, session);
  }

  /** One call with an inactive lease is enough. */
  lemma InactiveLeaseSticks(session: SessionId, target: Mode, callback: Option<Callback>)
    ensures Stuck(RunRecovery(NO_RECOVERY, [Call(session, true, target, callback, Lease(false))]), session)
  {
    var step := Call(session, true, target, callback, Lease(false));
    assert [step][..0] == [];
    assert RunRecovery(NO_RECOVERY, [step]) == NextRecovery(RunRecovery(NO_RECOVERY, []), step);
    StuckExactly(NO_RECOVERY, step, session);
  }

  /** The attempt was created by that step, already withdrawn. */
  predicate BornWithdrawn(r: Recovery, next: Recovery, id: EntryId) {
    |r.entries| == id && id < |next.entries| && next.entries[id].stage == Withdrawn
  }

  predicate StuckAt(r: Recovery, id: EntryId) {
    IsCurrent(r, id) && r.entries[id].stage == Withdrawn
  }

  lemma RecoverWithdrawn(r: Recovery, own: SessionId, target: Mode, callback: Option<Callback>, lease: LeaseArg,
      id: EntryId)
    requires Sound(r) && StuckAt(Recover(r, own, target, callback, lease), id)
    ensures BornWithdrawn(r, Recover(r, own, target, callback, lease), id) || StuckAt(r, id)
  {
  }

  lemma AnswerWithdrawn(r: Recovery, at: EntryId, granted: bool, id: EntryId)
    requires Sound(r) && StuckAt(AnswerBarrier(r, at, granted), id)
    ensures StuckAt(r, id)
  {
  }

  lemma EndStageWithdrawn(r: Recovery, at: EntryId, ok: bool, id: EntryId)
    requires Sound(r) && StuckAt(EndStage(r, at, ok), id)
    ensures StuckAt(r, id)
  {
  }

  lemma WakeWithdrawn(r: Recovery, h: nat, active: bool, id: EntryId)
    requires Sound(r) && StuckAt(WakeHeir(r, h, active), id)
    ensures BornWithdrawn(r, WakeHeir(r, h, active), id) || StuckAt(r, id)
  {
    if h < |r.heirs| && r.heirs[h].waiting {
      var heir := r.heirs[h];
      if r.entries[heir.on].promise == Promise.Rejected && !r.entries[heir.on].started {
        var woken := r.(heirs := r.heirs[h := heir.(waiting := false)]);
        ForgetIsSound(woken, heir.session, heir.on);
        RecoverWithdrawn(Forget(woken, heir.session, heir.on), heir.session, heir.target, heir.callback,
          Lease(active), id);
      }
    }
  }

  lemma WithdrawnEarlier(r: Recovery, step: RecoveryStep, id: EntryId)
    requires Sound(r) && StuckAt(NextRecovery(r, step), id)
    ensures BornWithdrawn(r, NextRecovery(r, step), id) || StuckAt(r, id)
  {
    match step
    case Call(own, sandbox, target, callback, lease) =>
      if sandbox { RecoverWithdrawn(r, own, target, callback, lease, id); }
    case BarrierAnswers(at, granted) => AnswerWithdrawn(r, at, granted, id);
    case StageEnds(at, ok) => EndStageWithdrawn(r, at, ok, id);
    case Settle(_) =>
    case HeirWakes(h, active) => WakeWithdrawn(r, h, active, id);
  }

  /** The table after the first `n` steps. */
  function TableAfter(steps: seq<RecoveryStep>, n: nat): Recovery
    requires n <= |steps|
  {
    RunRecovery(NO_RECOVERY, steps[..n])
  }

  lemma TableNext(steps: seq<RecoveryStep>, n: nat)
    requires n < |steps|
    ensures TableAfter(steps, n + 1) == NextRecovery(TableAfter(steps, n), steps[n])
    ensures Sound(TableAfter(steps, n))
  {
    assert steps[..n + 1][..n] == steps[..n];
    RunsAreSound(steps[..n]);
  }

  /** Whatever ran: an attempt that is stuck in the table was refused at its own creation. */
  lemma {:induction false} StuckWasBornWithdrawn(steps: seq<RecoveryStep>, n: nat, id: EntryId)
    requires n <= |steps| && StuckAt(TableAfter(steps, n), id)
    ensures exists k: nat :: k < n && BornWithdrawn(TableAfter(steps, k), TableAfter(steps, k + 1), id)
    decreases n
  {
    assert n > 0;
    TableNext(steps, n - 1);
    WithdrawnEarlier(TableAfter(steps, n - 1), steps[n - 1], id);
    if StuckAt(TableAfter(steps, n - 1), id) { StuckWasBornWithdrawn(steps, n - 1, id); }
  }

  /** Nothing was ever done for the session. */
  ghost predicate Untouched(r: Recovery, session: SessionId) {
    forall a :: 0 <= a < |r.acts| ==> SessionOf(r, r.acts[a]) != Some(session)
  }

  /** A caller without a lease that asks for the session now gets an attempt of its own. */
  predicate StartsFresh(r: Recovery, session: SessionId, target: Mode, callback: Option<Callback>) {
    var next := NextRecovery(r, Call(session, true, target, callback, NoLease));
    |next.entries| == |r.entries| + 1 && next.entries[|r.entries|].session == session
      && next.entries[|r.entries|].stage == Acquiring
  }

  /** While every attempt of the session has withdrawn, a caller without a lease gets an attempt of
      its own exactly if none is stuck. */
  lemma FreshAttemptUnlessStuck(r: Recovery, session: SessionId, target: Mode, callback: Option<Callback>)
    requires Sound(r)
    requires forall id :: 0 <= id < |r.entries| && r.entries[id].session == session ==> r.entries[id].stage == Withdrawn
    ensures StartsFresh(r, session, target, callback) <==> !Stuck(r, session)
  {
  }

  lemma StuckBlocks(r: Recovery, session: SessionId)
    requires Sound(r) && Stuck(r, session)
    ensures Untouched(r, session)
    ensures forall target, callback :: !StartsFresh(r, session, target, callback)
  {
    forall id | 0 <= id < |r.entries| && r.entries[id].session == session ensures r.entries[id].stage == Withdrawn {
      assert r.entries[id].stage != Withdrawn ==> IsCurrent(r, id);
    }
    forall target, callback ensures !StartsFresh(r, session, target, callback) {
      FreshAttemptUnlessStuck(r, session, target, callback);
    }
  }

  /** A stuck attempt blocks its session from step `from` on, as long as no lease owner replaces it:
      nothing is done for the session, and callers without a lease get no attempt of their own. */
  lemma {:induction false} StuckUntilReplaced(steps: seq<RecoveryStep>, from: nat, n: nat, session: SessionId)
    requires from <= n <= |steps| && Stuck(TableAfter(steps, from), session)
    requires forall k: nat :: from <= k < n ==> !OwnerReplaces(TableAfter(steps, k), steps[k], session)
    ensures Stuck(TableAfter(steps, n), session) && Untouched(TableAfter(steps, n), session)
    ensures forall target, callback :: !StartsFresh(TableAfter(steps, n), session, target, callback)
    decreases n
  {
    if n > from {
      StuckUntilReplaced(steps, from, n - 1, session);
      TableNext(steps, n - 1);
      StuckExactly(TableAfter(steps, n - 1), steps[n - 1], session);
    }
    RunsAreSound(steps[..n]);
    StuckBlocks(TableAfter(steps, n), session);
  }

  /** The module's table as the program holds it. */
  class RecoveryTable {
    var recoveryEntries: map<SessionId, EntryId>
    var entries: seq<Entry>
    var heirs: seq<Heir>
    var acts: seq<Act>

    function State(): Recovery
      reads this
    {
      Recovery(recoveryEntries, entries, heirs, acts)
    }

    constructor ()
      ensures State() == NO_RECOVERY && Sound(State())
    {
      recoveryEntries, entries, heirs, acts := map[], [], [], [];
    }

    method RecoverRetiredSandboxGeneration(session: SessionId, sandbox: bool, target: Mode,
        callback: Option<Callback>, lease: LeaseArg)
      returns (shared: Option<EntryId>)
      requires Sound(State())
      modifies this
      ensures Sound(State()) && State() == NextRecovery(old(State()), Call(session, sandbox, target, callback, lease))
      ensures shared.Some? ==>
        && sandbox && shared.value < |entries| && entries[shared.value].session == session
        && entries[shared.value].target == target
      ensures shared.None? ==> entries == old(entries) && acts == old(acts)
    {
      if !sandbox { return None; }
      RecoverIsSound(State(), session, target, callback, lease);
      if session in recoveryEntries {
        var id := recoveryEntries[session];
        assert IsCurrent(State(), id);
        var existing := entries[id];
        if lease.Lease? && !existing.started {
          heirs := heirs + [Heir(session, target, callback, id, true)];
          return None;
        }
        if existing.target != target { return None; }
        if callback.Some? && existing.phase == Recovering {
          entries := entries[id := existing.(
            callbacks := existing.callbacks + [callback.value],
            registered := existing.registered + [callback.value])];
        }
        return Some(id);
      }
      var first := if callback.Some? then [callback.value] else [];
      var entry := Entry(session, target, first, Recovering, false, Acquiring, Unsettled, first, []);
      if lease.Lease? {
        if lease.active {
          entry := entry.(started := true, stage := Clearing);
          acts := acts + [Act(|entries|, HideMode), Act(|entries|, WipeDatabase)];
        } else {
          entry := entry.(stage := Withdrawn);
        }
      }
      shared := Some(|entries|);
      recoveryEntries := recoveryEntries[session := |entries|];
      entries := entries + [entry];
    }

    /** performRetiredSandboxRecovery after the await of the barrier. */
    method AfterBarrier(id: EntryId, granted: bool)
      requires Sound(State()) && id < |entries| && entries[id].stage == Acquiring
      modifies this
      ensures Sound(State()) && State() == NextRecovery(old(State()), BarrierAnswers(id, granted))
      ensures !granted ==> acts == old(acts)
    {
      AnswerIsSound(State(), id, granted);
      if granted {
        entries := entries[id := entries[id].(started := true, stage := Clearing)];
        acts := acts + [Act(id, HideMode), Act(id, WipeDatabase)];
        return;
      }
      entries := entries[id := entries[id].(stage := Withdrawn)];
      if entries[id].session in recoveryEntries && recoveryEntries[entries[id].session] == id {
        recoveryEntries := recoveryEntries - {entries[id].session};
      }
    }

    /** One round of the callback loop, after its list was prepared or the last batch ended well. */
    method RunCallbacks(id: EntryId)
      requires Sound(State()) && id < |entries| && entries[id].promise == Unsettled
      requires entries[id].stage == HandingOver || entries[id].stage == Exposing
      modifies this
      ensures Sound(State()) && State() == NextRecovery(old(State()), StageEnds(id, true))
      ensures entries[id].callbacks == [] && entries[id].ran == entries[id].registered == old(entries[id].registered)
    {
      EndStageIsSound(State(), id, true);
      var entry := entries[id].(phase := Callbacks);
      if |entry.callbacks| > 0 {
        var callbacks := entry.callbacks;
        entry := entry.(callbacks := [], ran := entry.ran + callbacks, stage := Exposing);
      } else {
        entry := entry.(stage := Noticing);
      }
      entries := entries[id := entry];
    }
  }
}
