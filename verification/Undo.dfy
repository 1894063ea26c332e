/** Exact undo: when the server rejects the first of a chain of local corrections, discarding
    any operation of the chain restores the transaction as it was before that correction. */
module Undo {
  import opened LocalTables
  import opened Repository
  import opened Device
  import opened Frames
  import opened InOrder

  // ----- stored snapshots survive -----

  /** The snapshots that undo needs are kept: revisions of the key stay, audit rows are only added. */
  ghost predicate HistoryKept(db: Db, next: Db, key: Key) {
    && (forall r :: (key, r) in db.revs ==> (key, r) in next.revs && next.revs[(key, r)] == db.revs[(key, r)])
    && (next.audits == db.audits || exists audit :: next.audits == db.audits + [audit])
  }

  lemma StoredBeforeKept(db: Db, next: Db, key: Key, op: Op)
    requires HistoryKept(db, next, key) && StoredBefore(db, key, op).Some?
    ensures StoredBefore(next, key, op).Some?
    ensures op.signed.action == Correct ==> StoredBefore(next, key, op) == StoredBefore(db, key, op)
  {
    if next.audits != db.audits {
      var audit :| next.audits == db.audits + [audit];
      assert next.audits[..|next.audits| - 1] == db.audits;
    }
  }

  lemma EditKeepsHistory(db: Db, edit: Edit, key: Key)
    requires ApplyEdit(db, edit).Committed?
    ensures HistoryKept(db, ApplyEdit(db, edit).db, key)
  {
  }

  lemma MarkKeepsHistory(db: Db, i: OpId, result: MarkResult, now: Time, key: Key)
    requires i < |db.ops|
    ensures HistoryKept(db, Mark(db, i, result, now), key)
  {
  }

  lemma ResolveKeepsHistory(db: Db, id: nat, shown: ConflictRow, resolution: Resolution, signing: Signing, key: Key)
    requires shown.key != key
    ensures var r := Resolve(db, id, shown, resolution, signing); r.Committed? ==> HistoryKept(db, r.db, key)
  {
  }

  // ----- the chain while its first correction is unsent -----

  predicate RevisesTx(op: Op) { op.signed.action == Correct || op.signed.action == SetPayment }

  predicate EditOf(ops: seq<Op>, j: int, key: Key) {
    0 <= j < |ops| && ops[j].key == key && ops[j].OnTransaction()
  }

  /** A snapshot is stored for the edit; for a correction it is that of its origin. */
  ghost predicate Keeps(db: Db, key: Key, op: Op, origin: Snapshot) {
    && RevisesTx(op) && StoredBefore(db, key, op).Some?
    && (op.signed.action == Correct ==> StoredBefore(db, key, op) == Some(origin))
  }

  ghost predicate Chain(db: Db, key: Key, p: OpId, origin: Snapshot) {
    && p < |db.ops| && db.ops[p].key == key && db.ops[p].Unsent()
    && key in db.txs
    && Keeps(db, key, db.ops[p], origin)
    && (forall j :: EditOf(db.ops, j, key) && j < p ==>
       db.ops[j].state != Rejected && db.ops[j].state != Conflict && !db.ops[j].Terminal())
    && (forall j :: EditOf(db.ops, j, key) && j > p ==> RevisesTx(db.ops[j]) && StoredBefore(db, key, db.ops[j]).Some?)
  }

  lemma ChainStarts(db: Db, edit: Edit)
    requires Explained(db.ops) && (edit.EditCorrect? || edit.EditPayment?)
    requires ApplyEdit(db, edit).Committed? && |ApplyEdit(db, edit).db.ops| > |db.ops|
    ensures edit.key in db.txs && StoredBefore(ApplyEdit(db, edit).db, edit.key, ApplyEdit(db, edit).db.ops[|db.ops|])
      == Some(Hydrate(db, edit.key))
    ensures Chain(ApplyEdit(db, edit).db, edit.key, |db.ops|, Hydrate(db, edit.key))
  {
    var next := ApplyEdit(db, edit).db;
    assert forall j :: EditOf(next.ops, j, edit.key) && j < |db.ops| ==>
      next.ops[j] == db.ops[j] && EditOf(db.ops, j, edit.key);
  }

  lemma CorrectionAppends(db: Db, edit: Edit)
    requires edit.EditCorrect? && ApplyEdit(db, edit).Committed?
    ensures var next := ApplyEdit(db, edit).db;
      |next.ops| == |db.ops| + 1 && next.ops[|db.ops|].signed.action == Correct
  {
  }

  /** What a step must keep for the chain to go on; `next.ops` may have one more row. */
  lemma ChainGoesOn(db: Db, next: Db, key: Key, p: OpId, origin: Snapshot)
    requires Chain(db, key, p, origin) && HistoryKept(db, next, key) && key in next.txs
    requires |db.ops| <= |next.ops| && next.ops[p].Unsent()
    requires EvidenceKept(db.ops, next.ops)
    requires forall j :: EditOf(db.ops, j, key) && j < p ==>
      next.ops[j].state != Rejected && next.ops[j].state != Conflict && !next.ops[j].Terminal()
    requires forall j :: EditOf(next.ops, j, key) && j >= |db.ops| ==>
      RevisesTx(next.ops[j]) && StoredBefore(next, key, next.ops[j]).Some?
    ensures Chain(next, key, p, origin)
  {
    StoredBeforeKept(db, next, key, db.ops[p]);
    forall j | EditOf(next.ops, j, key) && j > p
      ensures RevisesTx(next.ops[j]) && StoredBefore(next, key, next.ops[j]).Some?
    {
      if j < |db.ops| {
        assert EditOf(db.ops, j, key);
        StoredBeforeKept(db, next, key, db.ops[j]);
      }
    }
    forall j | EditOf(next.ops, j, key) && j < p
      ensures next.ops[j].state != Rejected && next.ops[j].state != Conflict && !next.ops[j].Terminal()
    {
      assert EditOf(db.ops, j, key);
    }
  }

  lemma EditContinuesChain(db: Db, edit: Edit, key: Key, p: OpId, origin: Snapshot)
    requires Chain(db, key, p, origin) && ApplyEdit(db, edit).Committed?
    ensures Chain(ApplyEdit(db, edit).db, key, p, origin)
  {
    var next := ApplyEdit(db, edit).db;
    EditKeepsHistory(db, edit, key);
    EditsAppend(db, edit);
    EditStoresBefore(db, edit, key);
    assert forall j :: 0 <= j < |db.ops| ==> next.ops[j] == db.ops[j];
    ChainGoesOn(db, next, key, p, origin);
  }

  lemma EditStoresBefore(db: Db, edit: Edit, key: Key)
    requires ApplyEdit(db, edit).Committed? && key in db.txs
    ensures var next := ApplyEdit(db, edit).db;
      key in next.txs && forall j :: EditOf(next.ops, j, key) && j >= |db.ops| ==>
        RevisesTx(next.ops[j]) && StoredBefore(next, key, next.ops[j]).Some?
  {
  }

  lemma MarkContinuesChain(d: Device, i: OpId, result: MarkResult, now: Time, key: Key, p: OpId, origin: Snapshot)
    requires Ordered(d) && Chain(d.db, key, p, origin) && i in d.inFlight
    requires Mark(d.db, i, result, now).ops[p].Unsent()
    ensures Chain(Mark(d.db, i, result, now), key, p, origin)
  {
    var db, next := d.db, Mark(d.db, i, result, now);
    MarkShape(db, i, result, now);
    MarkKeepsHistory(db, i, result, now, key);
    assert db.ops[i].key == key && i < p ==> !Halts(next.ops[i]);
    forall j | EditOf(db.ops, j, key) && j < p
      ensures next.ops[j].state != Rejected && next.ops[j].state != Conflict && !next.ops[j].Terminal()
    {
      assert j == i || next.ops[j] == db.ops[j];
    }
    MarkKeepsTxs(db, i, result, now, key);
    ChainGoesOn(db, next, key, p, origin);
  }

  lemma MarkKeepsTxs(db: Db, i: OpId, result: MarkResult, now: Time, key: Key)
    requires i < |db.ops| && key in db.txs
    ensures key in Mark(db, i, result, now).txs
  {
  }

  lemma NoRefusedEdit(d: Device, key: Key, p: OpId, origin: Snapshot)
    requires Ordered(d) && Chain(d.db, key, p, origin)
    ensures forall j :: EditOf(d.db.ops, j, key) ==> d.db.ops[j].state != Rejected && d.db.ops[j].state != Conflict
  {
    forall j | EditOf(d.db.ops, j, key) ensures d.db.ops[j].state != Rejected && d.db.ops[j].state != Conflict {
      assert j > p ==> d.db.ops[j].state == Pending;
    }
  }

  lemma ShapedDiscardContinuesChain(db: Db, next: Db, i: OpId, key: Key, p: OpId, origin: Snapshot)
    requires Chain(db, key, p, origin) && DiscardShape(db, next, i) && Quiet(db.ops, next.ops)
    requires forall j :: EditOf(db.ops, j, key) ==> db.ops[j].state != Rejected && db.ops[j].state != Conflict
    ensures Chain(next, key, p, origin)
  {
    if next != db {
      assert !EditOf(db.ops, i, key);
      assert HistoryKept(db, next, key);
      assert forall j :: EditOf(db.ops, j, key) ==> next.ops[j] == db.ops[j] || db.ops[j].state == Discarded;
      ChainGoesOn(db, next, key, p, origin);
    }
  }

  lemma DiscardContinuesChain(d: Device, i: OpId, now: Time, key: Key, p: OpId, origin: Snapshot)
    requires Ordered(d) && Chain(d.db, key, p, origin) && Discard(d.db, i, now).Committed?
    ensures Chain(Discard(d.db, i, now).db, key, p, origin)
  {
    NoRefusedEdit(d, key, p, origin);
    DiscardFrame(d.db, i, now);
    DiscardQuiet(d.db, i, now);
    ShapedDiscardContinuesChain(d.db, Discard(d.db, i, now).db, i, key, p, origin);
  }

  lemma ResolveContinuesChain(d: Device, id: nat, shown: ConflictRow, resolution: Resolution, signing: Signing,
      key: Key, p: OpId, origin: Snapshot)
    requires Ordered(d) && Chain(d.db, key, p, origin) && Resolve(d.db, id, shown, resolution, signing).Committed?
    ensures Chain(Resolve(d.db, id, shown, resolution, signing).db, key, p, origin)
  {
    var db, next := d.db, Resolve(d.db, id, shown, resolution, signing).db;
    ResolveOps(db, id, shown, resolution, signing);
    NoRefusedEdit(d, key, p, origin);
    var source := ConflictSource(db.ops, shown.key, 0).value;
    assert !EditOf(db.ops, source, key);
    ResolveKeepsHistory(db, id, shown, resolution, signing, key);
    ResolveRows(db, id, shown, resolution, signing, key);
    OtherKeyRows(db, next, source, shown.key, key);
    ChainGoesOn(db, next, key, p, origin);
  }

  lemma ResolveRows(db: Db, id: nat, shown: ConflictRow, resolution: Resolution, signing: Signing, key: Key)
    ensures var r := Resolve(db, id, shown, resolution, signing);
      r.Committed? ==>
        && ConflictSource(db.ops, shown.key, 0).Some?
        && var source := ConflictSource(db.ops, shown.key, 0).value;
        && (r.db.ops == Closed(db.ops, source, shown.key)
            || exists op: Op ::
                 op.key == shown.key && op.state == Pending && r.db.ops == Closed(db.ops + [op], source, shown.key))
        && (key in db.txs ==> key in r.db.txs)
  {
  }

  lemma OtherKeyRows(db: Db, next: Db, source: OpId, own: Key, key: Key)
    requires source < |db.ops| && db.ops[source].key == own && own != key
    requires next.ops == Closed(db.ops, source, own)
      || exists op: Op :: op.key == own && op.state == Pending && next.ops == Closed(db.ops + [op], source, own)
    ensures |db.ops| <= |next.ops| && EvidenceKept(db.ops, next.ops)
    ensures forall j :: 0 <= j < |db.ops| && db.ops[j].key == key ==> next.ops[j] == db.ops[j]
    ensures forall j :: |db.ops| <= j < |next.ops| ==> next.ops[j].key == own
  {
  }

  lemma PullFreeStepContinuesChain(d: Device, step: Step, key: Key, p: OpId, origin: Snapshot)
    requires Ordered(d) && Chain(d.db, key, p, origin) && !step.DoPullPage?
    requires p < |Next(d, step).db.ops| && Next(d, step).db.ops[p].Unsent()
    ensures Chain(Next(d, step).db, key, p, origin)
  {
    var db, next := d.db, Next(d, step).db;
    if step.DoEdit? {
      if ApplyEdit(db, step.edit).Committed? { EditContinuesChain(db, step.edit, key, p, origin); }
    } else if step.DoMark? {
      if step.op in d.inFlight {
        MarkContinuesChain(d, step.op, Interpret(db, step.op, step.answer), step.now, key, p, origin);
      }
    } else if step.DoDiscard? {
      if Discard(db, step.op, step.now).Committed? { DiscardContinuesChain(d, step.op, step.now, key, p, origin); }
    } else if step.DoResolve? {
      if Resolve(db, step.id, step.shown, step.resolution, step.signing).Committed? {
        ResolveContinuesChain(d, step.id, step.shown, step.resolution, step.signing, key, p, origin);
      }
    } else if step.DoQuarantine? || step.DoRelease? {
      FlagsContinueChain(db, next, key, p, origin);
    }
  }

  lemma FlagsContinueChain(db: Db, next: Db, key: Key, p: OpId, origin: Snapshot)
    requires Chain(db, key, p, origin)
    requires next == db.(ops := next.ops, cursor := next.cursor, blocked := next.blocked) && |next.ops| == |db.ops|
    requires forall j :: 0 <= j < |db.ops| ==> next.ops[j] == db.ops[j].(quarantine := next.ops[j].quarantine)
    ensures Chain(next, key, p, origin)
  {
    ChainGoesOn(db, next, key, p, origin);
  }

  predicate PullFree(steps: seq<Step>) {
    forall k :: 0 <= k < |steps| ==> !steps[k].DoPullPage?
  }

  lemma {:induction false} OrderedRun(d: Device, steps: seq<Step>)
    requires Ordered(d)
    ensures Ordered(Run(d, steps)) && |d.db.ops| <= |Run(d, steps).db.ops|
    decreases |steps|
  {
    if steps != [] {
      OrderedRun(d, steps[..|steps| - 1]);
      StepKeepsOrder(Run(d, steps[..|steps| - 1]), steps[|steps| - 1]);
    }
  }

  lemma {:induction false} ChainThroughRun(d: Device, steps: seq<Step>, key: Key, p: OpId, origin: Snapshot)
    requires Ordered(d) && Chain(d.db, key, p, origin) && PullFree(steps)
    requires p < |Run(d, steps).db.ops| && Run(d, steps).db.ops[p].Unsent()
    ensures Chain(Run(d, steps).db, key, p, origin)
    decreases |steps|
  {
    if steps != [] {
      var mid, step := Run(d, steps[..|steps| - 1]), steps[|steps| - 1];
      OrderedRun(d, steps[..|steps| - 1]);
      StepKeepsOrder(mid, step);
      ChainThroughRun(d, steps[..|steps| - 1], key, p, origin);
      PullFreeStepContinuesChain(mid, step, key, p, origin);
    }
  }

  // ----- the chain after its first correction was refused -----

  ghost predicate Refused(db: Db, key: Key, p: OpId, origin: Snapshot, message: string) {
    && p < |db.ops| && RejectedEdit(db.ops[p], key) && db.ops[p].lastError == Some(message)
    && key in db.txs
    && Keeps(db, key, db.ops[p], origin)
    && (forall j :: 0 <= j < p && db.ops[j].key == key ==> !Blocks(db.ops[j]))
    && (forall j :: EditOf(db.ops, j, key) && j > p ==>
          && RevisesTx(db.ops[j]) && StoredBefore(db, key, db.ops[j]).Some?
          && db.ops[j].state == Rejected && db.ops[j].lastError == Some(CASCADE_REJECTED + message))
    && !HasState(db.ops, key, Conflict)
  }

  lemma ChainIsRefused(d: Device, key: Key, p: OpId, origin: Snapshot, message: string, now: Time)
    requires Ordered(d) && Chain(d.db, key, p, origin) && p in d.inFlight
    ensures Refused(Mark(d.db, p, MarkRejected(message), now), key, p, origin, message)
  {
    var db, next := d.db, Mark(d.db, p, MarkRejected(message), now);
    MarkKeepsHistory(db, p, MarkRejected(message), now, key);
    MarkKeepsTxs(db, p, MarkRejected(message), now, key);
    MarkWritesRows(db, p, MarkRejected(message), now);
    assert next.ops[p] == Reject(db.ops[p], message);
    assert forall j :: j > p && j < |db.ops| && db.ops[j].key == key ==> db.ops[j].state == Pending;
    assert forall j :: 0 <= j < p && db.ops[j].key == key ==> !Blocks(db.ops[j]);
    RowsAreRefused(db, next, key, p, origin, message);
  }

  lemma RowsAreRefused(db: Db, next: Db, key: Key, p: OpId, origin: Snapshot, message: string)
    requires Chain(db, key, p, origin) && HistoryKept(db, next, key) && key in next.txs
    requires MarkRows(db.ops, next.ops, p, CASCADE_REJECTED + message) && next.ops[p] == Reject(db.ops[p], message)
    requires forall j :: j > p && j < |db.ops| && db.ops[j].key == key ==> db.ops[j].state == Pending
    requires forall j :: 0 <= j < p && db.ops[j].key == key ==> !Blocks(db.ops[j])
    ensures Refused(next, key, p, origin, message)
  {
    StoredBeforeKept(db, next, key, db.ops[p]);
    forall j | EditOf(next.ops, j, key) && j > p
      ensures RevisesTx(next.ops[j]) && StoredBefore(next, key, next.ops[j]).Some?
    {
      assert EditOf(db.ops, j, key);
      StoredBeforeKept(db, next, key, db.ops[j]);
    }
  }

  lemma RefusedGoesOn(db: Db, next: Db, key: Key, p: OpId, origin: Snapshot, message: string)
    requires Refused(db, key, p, origin, message) && HistoryKept(db, next, key) && key in next.txs
    requires EvidenceKept(db.ops, next.ops)
    requires forall j :: 0 <= j < |db.ops| && db.ops[j].key == key ==>
               || next.ops[j] == db.ops[j].(quarantine := next.ops[j].quarantine)
               || (j > p && !db.ops[j].OnTransaction() && next.ops[j].state != Conflict)
    requires forall j :: |db.ops| <= j < |next.ops| && next.ops[j].key == key ==>
      !next.ops[j].OnTransaction() && next.ops[j].state == Pending
    ensures Refused(next, key, p, origin, message)
  {
    StoredBeforeKept(db, next, key, db.ops[p]);
    forall j | EditOf(next.ops, j, key) && j > p
      ensures EditOf(db.ops, j, key) && StoredBefore(next, key, next.ops[j]).Some?
    {
      assert EditOf(db.ops, j, key);
      StoredBeforeKept(db, next, key, db.ops[j]);
    }
    assert forall j :: 0 <= j < |db.ops| && db.ops[j].key == key ==> db.ops[j].state != Conflict;
  }

  lemma EditLeavesRefused(db: Db, edit: Edit, key: Key, p: OpId, origin: Snapshot, message: string)
    requires Refused(db, key, p, origin, message) && ApplyEdit(db, edit).Committed?
    ensures Refused(ApplyEdit(db, edit).db, key, p, origin, message)
  {
    var next := ApplyEdit(db, edit).db;
    EditKeepsHistory(db, edit, key);
    EditsAppend(db, edit);
    assert TerminalBlock(db.ops, key);
    OnlyPrintsAppended(db, edit, key);
    RefusedGoesOn(db, next, key, p, origin, message);
  }

  lemma OnlyPrintsAppended(db: Db, edit: Edit, key: Key)
    requires TerminalBlock(db.ops, key) && key in db.txs && ApplyEdit(db, edit).Committed?
    ensures var next := ApplyEdit(db, edit).db;
      key in next.txs && forall j :: |db.ops| <= j < |next.ops| && next.ops[j].key == key ==>
        !next.ops[j].OnTransaction()
  {
  }

  lemma MarkLeavesRefused(d: Device, i: OpId, result: MarkResult, now: Time, key: Key, p: OpId, origin: Snapshot,
      message: string)
    requires Ordered(d) && Refused(d.db, key, p, origin, message) && i in d.inFlight
    ensures Refused(Mark(d.db, i, result, now), key, p, origin, message)
  {
    assert Blocks(d.db.ops[p]);
    assert d.db.ops[i].key != key;
    MarkWritesRows(d.db, i, result, now);
    MarkShape(d.db, i, result, now);
    MarkKeepsHistory(d.db, i, result, now, key);
    MarkKeepsTxs(d.db, i, result, now, key);
    RefusedGoesOn(d.db, Mark(d.db, i, result, now), key, p, origin, message);
  }

  lemma ResolveLeavesRefused(db: Db, id: nat, shown: ConflictRow, resolution: Resolution, signing: Signing, key: Key,
      p: OpId, origin: Snapshot, message: string)
    requires Refused(db, key, p, origin, message) && Resolve(db, id, shown, resolution, signing).Committed?
    ensures Refused(Resolve(db, id, shown, resolution, signing).db, key, p, origin, message)
  {
    var next := Resolve(db, id, shown, resolution, signing).db;
    var source := ConflictSource(db.ops, shown.key, 0).value;
    assert shown.key != key;
    ResolveKeepsHistory(db, id, shown, resolution, signing, key);
    ResolveRows(db, id, shown, resolution, signing, key);
    OtherKeyRows(db, next, source, shown.key, key);
    RefusedGoesOn(db, next, key, p, origin, message);
  }

  /** The refused chain is discarded as a whole: none of the rows it had at `ops` is rejected any more. */
  ghost predicate Discharged(ops: seq<Op>, later: seq<Op>, key: Key) {
    |ops| <= |later| && forall j :: EditOf(ops, j, key) && ops[j].state == Rejected ==> later[j].state == Resolved
  }

  lemma DiscardOfRefused(db: Db, i: OpId, now: Time, key: Key, p: OpId, origin: Snapshot, message: string)
    requires Refused(db, key, p, origin, message) && Discard(db, i, now).Committed?
    ensures var next := Discard(db, i, now).db;
      Refused(next, key, p, origin, message) || Discharged(db.ops, next.ops, key)
  {
    DiscardFrame(db, i, now);
    DiscardQuiet(db, i, now);
    ShapedDiscardOfRefused(db, Discard(db, i, now).db, i, key, p, origin, message);
  }

  lemma ShapedDiscardOfRefused(db: Db, next: Db, i: OpId, key: Key, p: OpId, origin: Snapshot, message: string)
    requires Refused(db, key, p, origin, message) && DiscardShape(db, next, i) && EvidenceKept(db.ops, next.ops)
    ensures Refused(next, key, p, origin, message) || Discharged(db.ops, next.ops, key)
  {
    if next != db && !EditOf(db.ops, i, key) {
      assert db.ops[i].key == key ==> Blocks(db.ops[i]);
      RefusedGoesOn(db, next, key, p, origin, message);
    }
  }

  lemma PullFreeStepOfRefused(d: Device, step: Step, key: Key, p: OpId, origin: Snapshot, message: string)
    requires Ordered(d) && Refused(d.db, key, p, origin, message) && !step.DoPullPage?
    ensures Refused(Next(d, step).db, key, p, origin, message) || Discharged(d.db.ops, Next(d, step).db.ops, key)
  {
    var db, next := d.db, Next(d, step).db;
    if step.DoEdit? {
      if ApplyEdit(db, step.edit).Committed? { EditLeavesRefused(db, step.edit, key, p, origin, message); }
    } else if step.DoMark? {
      if step.op in d.inFlight {
        MarkLeavesRefused(d, step.op, Interpret(db, step.op, step.answer), step.now, key, p, origin, message);
      }
    } else if step.DoDiscard? {
      if Discard(db, step.op, step.now).Committed? { DiscardOfRefused(db, step.op, step.now, key, p, origin, message); }
    } else if step.DoResolve? {
      if Resolve(db, step.id, step.shown, step.resolution, step.signing).Committed? {
        ResolveLeavesRefused(db, step.id, step.shown, step.resolution, step.signing, key, p, origin, message);
      }
    } else if step.DoQuarantine? || step.DoRelease? {
      StepKeepsOrder(d, step);
      RefusedGoesOn(db, next, key, p, origin, message);
    }
  }

  /** Until it is discarded, a refused chain stays refused, whatever runs but a pull. */
  lemma {:induction false} RefusedThroughRun(d: Device, steps: seq<Step>, key: Key, p: OpId, origin: Snapshot,
      message: string)
    requires Ordered(d) && Refused(d.db, key, p, origin, message) && PullFree(steps)
    ensures var later := Run(d, steps);
      Refused(later.db, key, p, origin, message) || Discharged(d.db.ops, later.db.ops, key)
    decreases |steps|
  {
    if steps != [] {
      var mid, step := Run(d, steps[..|steps| - 1]), steps[|steps| - 1];
      OrderedRun(d, steps[..|steps| - 1]);
      RefusedThroughRun(d, steps[..|steps| - 1], key, p, origin, message);
      StepKeepsOrder(mid, step);
      RowsKept(d, steps[..|steps| - 1]);
      if Refused(mid.db, key, p, origin, message) {
        PullFreeStepOfRefused(mid, step, key, p, origin, message);
        if Discharged(mid.db.ops, Next(mid, step).db.ops, key) {
          DischargedSince(d.db, mid.db, Next(mid, step).db.ops, key, p, origin, message);
        }
      }
    }
  }

  lemma DischargedSince(db: Db, mid: Db, later: seq<Op>, key: Key, p: OpId, origin: Snapshot, message: string)
    requires Refused(db, key, p, origin, message) && Refused(mid, key, p, origin, message)
    requires EvidenceKept(db.ops, mid.ops) && Discharged(mid.ops, later, key)
    ensures Discharged(db.ops, later, key)
  {
    forall j | EditOf(db.ops, j, key) && db.ops[j].state == Rejected ensures later[j].state == Resolved {
      assert EditOf(mid.ops, j, key);
      assert j < p ==> !Blocks(db.ops[j]);
    }
  }

  lemma {:induction false} RowsKept(d: Device, steps: seq<Step>)
    requires Ordered(d)
    ensures EvidenceKept(d.db.ops, Run(d, steps).db.ops)
    decreases |steps|
  {
    if steps != [] {
      RowsKept(d, steps[..|steps| - 1]);
      OrderedRun(d, steps[..|steps| - 1]);
      StepKeepsOrder(Run(d, steps[..|steps| - 1]), steps[|steps| - 1]);
    }
  }

  // ----- discarding a refused chain -----

  lemma {:induction false} RestoresOldest(db: Db, key: Key, ops: seq<Op>, rows: seq<OpId>, n: nat, origin: Snapshot)
    requires 0 < n <= |rows|
    requires forall x :: 0 <= x < |rows| ==> rows[x] < |ops|
    requires forall x :: 0 <= x < n ==> StoredBefore(db, key, ops[rows[x]]).Some?
    requires StoredBefore(db, key, ops[rows[0]]) == Some(origin)
    ensures var r := RestoreRows(db, key, ops, rows, n);
      && r.Restored? && r.revision == origin.row.revision
      && key in r.db.txs && r.db.txs[key] == WithSync(origin, SyncSynced).row
      && (key, r.revision) in r.db.items && r.db.items[(key, r.revision)] == origin.items
    decreases n
  {
    if n > 1 {
      var restored := Replace(db, key, WithSync(StoredBefore(db, key, ops[rows[n - 1]]).value, SyncSynced));
      assert forall x :: 0 <= x < n ==>
        StoredBefore(restored, key, ops[rows[x]]) == StoredBefore(db, key, ops[rows[x]]);
      RestoresOldest(restored, key, ops, rows, n - 1, origin);
    }
  }

  /** The transaction as it was, nothing above its revision, and no rejected operation left. */
  ghost predicate UndoneTo(next: Db, key: Key, origin: Snapshot) {
    && key in next.txs && Hydrate(next, key) == WithSync(origin, SyncSynced)
    && (forall r :: (key, r) in next.items ==> r <= origin.row.revision)
    && (forall r :: (key, r) in next.revs ==> r <= origin.row.revision)
    && !HasState(next.ops, key, Rejected)
  }

  lemma RefusedRows(db: Db, key: Key, p: OpId, origin: Snapshot, message: string)
    requires Refused(db, key, p, origin, message)
    ensures var rows := RejectedRows(db.ops, key, |db.ops|);
      && rows != [] && rows[0] == p
      && (forall x :: 0 <= x < |rows| ==> rows[x] < |db.ops| && EditOf(db.ops, rows[x], key) && rows[x] >= p)
  {
    var rows := RejectedRows(db.ops, key, |db.ops|);
    assert p in rows;
    forall x | 0 <= x < |rows| ensures EditOf(db.ops, rows[x], key) && rows[x] >= p {
      assert RejectedEdit(db.ops[rows[x]], key);
      assert Blocks(db.ops[rows[x]]);
    }
    var x :| 0 <= x < |rows| && rows[x] == p;
  }

  lemma CascadeIsNoPaymentConflict(message: string)
    ensures !HasPaymentPrefix(CASCADE_REJECTED + message)
  {
    assert CASCADE_REJECTED[0] == 'O' && PAYMENT_CONFLICT_PREFIX[0] == 'P';
    assert (CASCADE_REJECTED + message)[0] == CASCADE_REJECTED[0];
  }

  /** Discarding an edit recovers all rejected edits of its key at once. */
  lemma DiscardOfEdit(db: Db, key: Key, rows: seq<OpId>, x: OpId, now: Time)
    requires EditOf(db.ops, x, key) && db.ops[x].state == Rejected
    requires !QuarantinedKey(db.ops, key) && !HasState(db.ops, key, Conflict)
    requires rows == RejectedRows(db.ops, key, |db.ops|) && rows != []
    ensures Discard(db, x, now) == match Recover(db, key, rows, now)
      case RolledBack => RolledBack
      case Committed(recovered) => Committed(recovered.(ops := ResolveTerminal(recovered.ops, key)))
  {
    assert db.ops[x].quarantine.None?;
  }

  lemma DiscardingUndoes(db: Db, key: Key, p: OpId, origin: Snapshot, message: string, x: OpId, now: Time)
    requires Refused(db, key, p, origin, message) && !HasPaymentPrefix(message)
    requires EditOf(db.ops, x, key) && db.ops[x].state == Rejected && !QuarantinedKey(db.ops, key)
    ensures Discard(db, x, now).Committed?
    ensures UndoneTo(Discard(db, x, now).db, key, StoredBefore(db, key, db.ops[p]).value)
    ensures db.ops[p].signed.action == Correct ==> UndoneTo(Discard(db, x, now).db, key, origin)
  {
    var rows := RejectedRows(db.ops, key, |db.ops|);
    RefusedRows(db, key, p, origin, message);
    CascadeIsNoPaymentConflict(message);
    RefusedRecovery(db, key, p, origin, message, rows, now);
    DiscardOfEdit(db, key, rows, x, now);
    RecoveredIsUndone(db, key, rows, StoredBefore(db, key, db.ops[p]).value);
  }

  lemma RefusedRecovery(db: Db, key: Key, p: OpId, origin: Snapshot, message: string, rows: seq<OpId>, now: Time)
    requires Refused(db, key, p, origin, message) && !HasPaymentPrefix(message)
      && !HasPaymentPrefix(CASCADE_REJECTED + message)
    requires rows != [] && rows[0] == p && forall x :: 0 <= x < |rows| ==>
      rows[x] < |db.ops| && EditOf(db.ops, rows[x], key) && rows[x] >= p
    ensures Recover(db, key, rows, now) == RecoverEdits(db, key, rows)
    ensures var r, stored := RestoreRows(db, key, db.ops, rows, |rows|), StoredBefore(db, key, db.ops[p]).value;
      && r.Restored? && r.revision == stored.row.revision
      && key in r.db.txs && r.db.txs[key] == WithSync(stored, SyncSynced).row
      && (key, r.revision) in r.db.items && r.db.items[(key, r.revision)] == stored.items
  {
    assert forall y :: 0 <= y < |rows| ==> !MarksPaymentConflict(db.ops[rows[y]]) && RevisesTx(db.ops[rows[y]]);
    RestoresOldest(db, key, db.ops, rows, |rows|, StoredBefore(db, key, db.ops[p]).value);
  }

  lemma RecoveredIsUndone(db: Db, key: Key, rows: seq<OpId>, origin: Snapshot)
    requires rows != [] && forall x :: 0 <= x < |rows| ==> rows[x] < |db.ops|
    requires var r := RestoreRows(db, key, db.ops, rows, |rows|);
      && r.Restored? && r.revision == origin.row.revision
      && key in r.db.txs && r.db.txs[key] == WithSync(origin, SyncSynced).row
      && (key, r.revision) in r.db.items && r.db.items[(key, r.revision)] == origin.items
    ensures var r := RecoverEdits(db, key, rows);
      r.Committed? && UndoneTo(r.db.(ops := ResolveTerminal(r.db.ops, key)), key, origin)
  {
  }

  // ----- a refusal message that looks like a payment conflict -----

  /** No authoritative snapshot is stored for row `p`. */
  ghost predicate NothingKept(audits: seq<Audit>, p: OpId) {
    forall a :: 0 <= a < |audits| && audits[a].PaymentConflictKept? ==> audits[a].op != p
  }

  /** Authoritative snapshots are stored only for operations already answered. */
  lemma StepKeepsNothing(d: Device, step: Step, p: OpId)
    requires Ordered(d) && NothingKept(d.db.audits, p)
    requires p < |Next(d, step).db.ops| ==> Next(d, step).db.ops[p].Unsent() || p !in d.inFlight
    ensures NothingKept(Next(d, step).db.audits, p)
  {
    var db, next := d.db, Next(d, step).db;
    if step.DoEdit? {
      if ApplyEdit(db, step.edit).Committed? { EditKeepsHistory(db, step.edit, ""); EditAudits(db, step.edit); }
    } else if step.DoMark? {
      if step.op in d.inFlight {
        var result := Interpret(db, step.op, step.answer);
        MarkWritesRows(db, step.op, result, step.now);
        MarkAudits(db, step.op, result, step.now);
      }
    } else if step.DoDiscard? {
      DiscardFrame(db, step.op, step.now);
    } else if step.DoPullPage? {
      if d.pull.Some? {
        var page := PullPage(d.log, d.pull.value, step.limit);
        ApplyChangesAudits(db, Changes(d.log[page.start..page.end]), step.now);
      }
    }
  }

  lemma EditAudits(db: Db, edit: Edit)
    requires ApplyEdit(db, edit).Committed?
    ensures var next := ApplyEdit(db, edit).db;
      |db.audits| <= |next.audits| && next.audits[..|db.audits|] == db.audits
      && forall a :: |db.audits| <= a < |next.audits| ==> next.audits[a].PaymentChanged?
  {
  }

  lemma MarkAudits(db: Db, i: OpId, result: MarkResult, now: Time)
    requires i < |db.ops|
    ensures var next := Mark(db, i, result, now);
      next.audits == db.audits
        || (next.ops[i].state == Rejected
        && next.audits == db.audits + [PaymentConflictKept(db.ops[i].key, i, next.audits[|db.audits|].authoritative)])
  {
  }

  lemma {:induction false} ApplyChangesAudits(db: Db, changes: seq<Change>, now: Time)
    ensures ApplyChanges(db, changes, now).audits == db.audits
    decreases |changes|
  {
    if changes != [] { ApplyChangesAudits(ApplyChange(db, changes[0], now), changes[1..], now); }
  }

  lemma {:induction false} NothingKeptForNextRow(steps: seq<Step>, p: OpId)
    requires p >= |Run(NEW_DEVICE, steps).db.ops|
    ensures NothingKept(Run(NEW_DEVICE, steps).db.audits, p)
    decreases |steps|
  {
    if steps != [] {
      var cut := steps[..|steps| - 1];
      RunsAreOrdered(cut);
      StepKeepsOrder(Run(NEW_DEVICE, cut), steps[|steps| - 1]);
      NothingKeptForNextRow(cut, p);
      StepKeepsNothing(Run(NEW_DEVICE, cut), steps[|steps| - 1], p);
    }
  }

  lemma {:induction false} NothingKeptThroughRun(d: Device, steps: seq<Step>, p: OpId)
    requires Ordered(d) && NothingKept(d.db.audits, p) && p < |d.db.ops|
    requires !d.db.ops[p].Unsent() || (p < |Run(d, steps).db.ops| && Run(d, steps).db.ops[p].Unsent())
    ensures NothingKept(Run(d, steps).db.audits, p)
    decreases |steps|
  {
    if steps != [] {
      var cut := steps[..|steps| - 1];
      var mid := Run(d, cut);
      OrderedRun(d, cut);
      RowsKept(d, cut);
      StepKeepsOrder(mid, steps[|steps| - 1]);
      NothingKeptThroughRun(d, cut, p);
      StepKeepsNothing(mid, steps[|steps| - 1], p);
    }
  }

  lemma {:induction false} NoAuditToRecover(audits: seq<Audit>, key: Key, p: OpId)
    requires NothingKept(audits, p)
    ensures LastConflictAudit(audits, key, p).None?
    decreases |audits|
  {
    if audits != [] { NoAuditToRecover(audits[..|audits| - 1], key, p); }
  }

  /** Such a message makes discarding look for a snapshot that was never stored, so it fails. */
  lemma PrefixBlocks(db: Db, key: Key, p: OpId, origin: Snapshot, message: string, x: OpId, now: Time)
    requires Refused(db, key, p, origin, message) && HasPaymentPrefix(message) && NothingKept(db.audits, p)
    requires EditOf(db.ops, x, key) && db.ops[x].state == Rejected && !QuarantinedKey(db.ops, key)
    ensures Discard(db, x, now) == RolledBack
  {
    var rows := RejectedRows(db.ops, key, |db.ops|);
    RefusedRows(db, key, p, origin, message);
    NoAuditToRecover(db.audits, key, p);
    PrefixedRecovery(db, key, p, origin, message, rows, now);
    DiscardOfEdit(db, key, rows, x, now);
  }

  lemma PrefixedRecovery(db: Db, key: Key, p: OpId, origin: Snapshot, message: string, rows: seq<OpId>, now: Time)
    requires Refused(db, key, p, origin, message) && HasPaymentPrefix(message)
      && LastConflictAudit(db.audits, key, p).None?
    requires rows != [] && rows[0] == p && forall x :: 0 <= x < |rows| ==>
      rows[x] < |db.ops| && EditOf(db.ops, rows[x], key) && rows[x] >= p
    ensures Recover(db, key, rows, now) == RolledBack
  {
    assert forall y :: 0 <= y < |rows| ==> RevisesTx(db.ops[rows[y]]);
    assert FirstPaymentConflict(db.ops, rows) == Some(p);
  }

  // ----- the theorem -----

  /** `first` is a local edit of a device; `during` runs before the server refuses it with the
      message, `after` runs before some operation `x` of the chain is to be discarded. */
  ghost predicate RefusedAt(start: Device, first: Edit, during: seq<Step>, answer: Answer, message: string, at: Time,
                            after: seq<Step>, x: OpId) {
    && (first.EditCorrect? || first.EditPayment?)
    && ApplyEdit(start.db, first).Committed? && |ApplyEdit(start.db, first).db.ops| > |start.db.ops|
    && PullFree(during) && PullFree(after)
    && var p := |start.db.ops|;
    && var sent := Run(Next(start, DoEdit(first)), during);
    && p in sent.inFlight && p < |sent.db.ops| && Interpret(sent.db, p, answer) == MarkRejected(message)
    && var refused := Next(sent, DoMark(p, answer, at));
    && EditOf(refused.db.ops, x, first.key) && refused.db.ops[x].state == Rejected
    && var last := Run(refused, after);
    && x < |last.db.ops| && last.db.ops[x].state == Rejected && !QuarantinedKey(last.db.ops, first.key)
  }

  function LastOf(start: Device, first: Edit, during: seq<Step>, answer: Answer, at: Time, after: seq<Step>): Device {
    Run(Next(Run(Next(start, DoEdit(first)), during), DoMark(|start.db.ops|, answer, at)), after)
  }

  /** The chain is refused at the end, and its first row is the edit's own. */
  lemma RefusedAtEnd(start: Device, first: Edit, during: seq<Step>, answer: Answer, message: string, at: Time,
                     after: seq<Step>, x: OpId)
    requires Ordered(start) && RefusedAt(start, first, during, answer, message, at, after, x)
    ensures first.key in start.db.txs
    ensures var last, key, p := LastOf(start, first, during, answer, at, after), first.key, |start.db.ops|;
      && Refused(last.db, key, p, Hydrate(start.db, key), message) && EditOf(last.db.ops, x, key)
      && last.db.ops[p].signed == Next(start, DoEdit(first)).db.ops[p].signed
  {
    var key, p := first.key, |start.db.ops|;
    ChainStarts(start.db, first);
    var origin, edited := Hydrate(start.db, key), Next(start, DoEdit(first));
    StepKeepsOrder(start, DoEdit(first));
    var sent := Run(edited, during);
    var refused := Next(sent, DoMark(p, answer, at));
    ChainIsRefusedInRun(edited, during, sent, refused, key, p, origin, answer, message, at);
    RefusedStays(refused, after, Run(refused, after), key, p, origin, message, x);
    SignedStays(edited, during, sent, refused, after, p, answer, at);
  }

  lemma SignedStays(edited: Device, during: seq<Step>, sent: Device, refused: Device, after: seq<Step>, p: OpId,
      answer: Answer, at: Time)
    requires Ordered(edited) && p < |edited.db.ops|
    requires sent == Run(edited, during) && refused == Next(sent, DoMark(p, answer, at))
    ensures var last := Run(refused, after);
      p < |last.db.ops| && last.db.ops[p].signed == edited.db.ops[p].signed
  {
    OrderedRun(edited, during);
    RowsKept(edited, during);
    StepKeepsOrder(sent, DoMark(p, answer, at));
    RowsKept(refused, after);
  }

  lemma NothingKeptAtEnd(before: seq<Step>, first: Edit, during: seq<Step>, answer: Answer, message: string, at: Time,
                         after: seq<Step>, x: OpId)
    requires RefusedAt(Run(NEW_DEVICE, before), first, during, answer, message, at, after, x)
    ensures var start := Run(NEW_DEVICE, before);
      NothingKept(LastOf(start, first, during, answer, at, after).db.audits, |start.db.ops|)
  {
    var start := Run(NEW_DEVICE, before);
    var key, p := first.key, |start.db.ops|;
    RunsAreOrdered(before);
    ChainStarts(start.db, first);
    var edited := Next(start, DoEdit(first));
    StepKeepsOrder(start, DoEdit(first));
    var sent := Run(edited, during);
    var refused := Next(sent, DoMark(p, answer, at));
    ChainIsRefusedInRun(edited, during, sent, refused, key, p, Hydrate(start.db, key), answer, message, at);
    NothingKeptForNextRow(before, p);
    StepKeepsNothing(start, DoEdit(first), p);
    NothingKeptThroughRun(edited, during, p);
    MarkAudits(sent.db, p, MarkRejected(message), at);
    NothingKeptThroughRun(refused, after, p);
  }

  /** Whichever edit comes first, the discard goes back to the snapshot stored for it. */
  lemma DiscardGoesBack(before: seq<Step>, first: Edit, during: seq<Step>, answer: Answer, message: string, at: Time,
                        after: seq<Step>, x: OpId, now: Time)
    requires RefusedAt(Run(NEW_DEVICE, before), first, during, answer, message, at, after, x)
    ensures var start := Run(NEW_DEVICE, before);
      var last, p := LastOf(start, first, during, answer, at, after), |start.db.ops|;
      && first.key in start.db.txs && p < |last.db.ops|
      && Keeps(last.db, first.key, last.db.ops[p], Hydrate(start.db, first.key))
      && (if HasPaymentPrefix(message) then Discard(last.db, x, now) == RolledBack
          else
            && Discard(last.db, x, now).Committed?
            && UndoneTo(Discard(last.db, x, now).db, first.key,
              StoredBefore(last.db, first.key, last.db.ops[p]).value))
  {
    var start := Run(NEW_DEVICE, before);
    RunsAreOrdered(before);
    RefusedAtEnd(start, first, during, answer, message, at, after, x);
    var last, key := LastOf(start, first, during, answer, at, after), first.key;
    if HasPaymentPrefix(message) {
      NothingKeptAtEnd(before, first, during, answer, message, at, after, x);
      PrefixBlocks(last.db, key, |start.db.ops|, Hydrate(start.db, key), message, x, now);
    } else {
      DiscardingUndoes(last.db, key, |start.db.ops|, Hydrate(start.db, key), message, x, now);
    }
  }

  /** `first` is the correction of `key` in a reachable device; `during` runs before the server
      refuses it, `after` runs before some operation `x` of the chain is discarded. */
  lemma ExactUndo(before: seq<Step>, first: Edit, during: seq<Step>, answer: Answer, message: string, at: Time,
                  after: seq<Step>, x: OpId, now: Time)
    requires var start := Run(NEW_DEVICE, before);
      && first.EditCorrect? && ApplyEdit(start.db, first).Committed? && PullFree(during) && PullFree(after)
      && var p := |start.db.ops|;
      && var sent := Run(Next(start, DoEdit(first)), during);
      && p in sent.inFlight && p < |sent.db.ops| && Interpret(sent.db, p, answer) == MarkRejected(message)
      && var refused := Next(sent, DoMark(p, answer, at));
      && EditOf(refused.db.ops, x, first.key) && refused.db.ops[x].state == Rejected
      && var last := Run(refused, after);
      && x < |last.db.ops| && last.db.ops[x].state == Rejected && !QuarantinedKey(last.db.ops, first.key)
    ensures var start := Run(NEW_DEVICE, before);
      var last := Run(Next(Run(Next(start, DoEdit(first)), during), DoMark(|start.db.ops|, answer, at)), after);
      && first.key in start.db.txs
      && (if HasPaymentPrefix(message) then Discard(last.db, x, now) == RolledBack
          else
            && Discard(last.db, x, now).Committed?
            && UndoneTo(Discard(last.db, x, now).db, first.key, Hydrate(start.db, first.key)))
  {
    var start := Run(NEW_DEVICE, before);
    CorrectionAppends(start.db, first);
    RunsAreOrdered(before);
    DiscardGoesBack(before, first, during, answer, message, at, after, x, now);
    RefusedAtEnd(start, first, during, answer, message, at, after, x);
  }

  lemma ChainIsRefusedInRun(edited: Device, during: seq<Step>, sent: Device, refused: Device, key: Key, p: OpId,
                            origin: Snapshot, answer: Answer, message: string, at: Time)
    requires Ordered(edited) && Chain(edited.db, key, p, origin) && PullFree(during)
    requires sent == Run(edited, during) && refused == Next(sent, DoMark(p, answer, at))
    requires p in sent.inFlight && p < |sent.db.ops| && Interpret(sent.db, p, answer) == MarkRejected(message)
    ensures sent.db.ops[p].Unsent() && refused.db == Mark(sent.db, p, MarkRejected(message), at)
    ensures Ordered(refused) && Refused(refused.db, key, p, origin, message)
  {
    OrderedRun(edited, during);
    assert sent.db.ops[p].Unsent();
    ChainThroughRun(edited, during, key, p, origin);
    ChainIsRefused(sent, key, p, origin, message, at);
    StepKeepsOrder(sent, DoMark(p, answer, at));
  }

  /** As long as some operation of the chain is rejected, the whole chain is. */
  lemma RefusedStays(refused: Device, after: seq<Step>, last: Device, key: Key, p: OpId, origin: Snapshot,
      message: string, x: OpId)
    requires Ordered(refused) && Refused(refused.db, key, p, origin, message) && PullFree(after)
      && last == Run(refused, after)
    requires EditOf(refused.db.ops, x, key) && refused.db.ops[x].state == Rejected
    requires x < |last.db.ops| && last.db.ops[x].state == Rejected
    ensures Refused(last.db, key, p, origin, message) && EditOf(last.db.ops, x, key)
  {
    OrderedRun(refused, after);
    RefusedThroughRun(refused, after, key, p, origin, message);
    RowsKept(refused, after);
  }
}
