/** Payment conflicts: the server answers an edit with its own final payment state. The edit and
    everything behind it is rejected, and discarding any of them leaves the server's snapshot. */
module PaymentConflicts {
  import opened LocalTables
  import opened Repository
  import opened Device
  import opened Frames
  import opened InOrder
  import opened Undo

  // ----- a transaction is created once -----

  /** Edited transactions exist, and only the first edit of a transaction can be its create. */
  ghost predicate CreatesFirst(db: Db) {
    && (forall i :: 0 <= i < |db.ops| && db.ops[i].OnTransaction() ==> db.ops[i].key in db.txs)
    && (forall i, j :: 0 <= i < j < |db.ops| && db.ops[i].key == db.ops[j].key && db.ops[i].OnTransaction() ==>
          db.ops[j].signed.action != Create)
  }

  /** Transactions stay, rows keep their edits, and a new edit is of a transaction that is there; a
      create only of one that was not. */
  ghost predicate EditsAdded(db: Db, next: Db) {
    && db.txs.Keys <= next.txs.Keys
    && |db.ops| <= |next.ops| <= |db.ops| + 1
    && (forall i :: 0 <= i < |db.ops| ==> next.ops[i].signed == db.ops[i].signed && next.ops[i].key == db.ops[i].key)
    && (forall i :: |db.ops| <= i < |next.ops| && next.ops[i].OnTransaction() ==>
          next.ops[i].key in next.txs && (next.ops[i].signed.action == Create ==> next.ops[i].key !in db.txs))
  }

  lemma AddedKeepsCreates(db: Db, next: Db)
    requires CreatesFirst(db) && EditsAdded(db, next)
    ensures CreatesFirst(next)
  {
    forall i | 0 <= i < |next.ops| && next.ops[i].OnTransaction() ensures next.ops[i].key in next.txs {
      if i < |db.ops| { assert db.ops[i].key in db.txs.Keys; }
    }
  }

  lemma EditAdds(db: Db, edit: Edit)
    requires ApplyEdit(db, edit).Committed?
    ensures EditsAdded(db, ApplyEdit(db, edit).db)
  {
  }

  lemma MarkAdds(db: Db, i: OpId, result: MarkResult, now: Time)
    requires i < |db.ops|
    ensures EditsAdded(db, Mark(db, i, result, now))
  {
    MarkWritesRows(db, i, result, now);
    forall key | key in db.txs ensures key in Mark(db, i, result, now).txs { MarkKeepsTxs(db, i, result, now, key); }
  }

  lemma DiscardAdds(db: Db, i: OpId, now: Time)
    requires Discard(db, i, now).Committed?
    ensures EditsAdded(db, Discard(db, i, now).db)
  {
    DiscardFrame(db, i, now);
    DiscardQuiet(db, i, now);
    ShapedDiscardAdds(db, Discard(db, i, now).db, i);
  }

  lemma ShapedDiscardAdds(db: Db, next: Db, i: OpId)
    requires DiscardShape(db, next, i) && Quiet(db.ops, next.ops)
    ensures EditsAdded(db, next)
  {
  }

  lemma ResolveAdds(db: Db, id: nat, shown: ConflictRow, resolution: Resolution, signing: Signing)
    requires Resolve(db, id, shown, resolution, signing).Committed?
    ensures EditsAdded(db, Resolve(db, id, shown, resolution, signing).db)
  {
    ResolveAppendsCorrection(db, id, shown, resolution, signing);
    var next, source := Resolve(db, id, shown, resolution, signing).db, ConflictSource(db.ops, shown.key, 0).value;
    if next.ops != Closed(db.ops, source, shown.key) {
      var op: Op :| op.key == shown.key && op.signed.action == Correct
        && next.ops == Closed(db.ops + [op], source, shown.key);
      ClosedAdds(db, next, db.ops + [op], source, shown.key);
    } else {
      ClosedAdds(db, next, db.ops, source, shown.key);
    }
  }

  lemma ResolveAppendsCorrection(db: Db, id: nat, shown: ConflictRow, resolution: Resolution, signing: Signing)
    requires Resolve(db, id, shown, resolution, signing).Committed?
    ensures var next, key := Resolve(db, id, shown, resolution, signing).db, shown.key;
      && ConflictSource(db.ops, key, 0).Some?
      && var source := ConflictSource(db.ops, key, 0).value;
      && (|| next.ops == Closed(db.ops, source, key)
          || exists op: Op ::
               op.key == key && op.signed.action == Correct && next.ops == Closed(db.ops + [op], source, key))
      && next.txs.Keys == db.txs.Keys + {key}
  {
  }

  lemma ClosedAdds(db: Db, next: Db, ops: seq<Op>, source: OpId, key: Key)
    requires ops == db.ops || exists op: Op :: op.key == key && op.signed.action == Correct && ops == db.ops + [op]
    requires source < |ops| && next.ops == Closed(ops, source, key) && next.txs.Keys == db.txs.Keys + {key}
    ensures EditsAdded(db, next)
  {
    assert key in next.txs.Keys;
    assert forall i :: 0 <= i < |ops| ==> next.ops[i].signed == ops[i].signed && next.ops[i].key == ops[i].key;
  }

  lemma ChangeAdds(db: Db, change: Change, now: Time)
    ensures db.txs.Keys <= ApplyChange(db, change, now).txs.Keys
  {
    if change.TxUpsert? || change.TxDelete? { ApplyToTxFrame(db, change.key, change); }
  }

  lemma {:induction false} ChangesAdd(db: Db, changes: seq<Change>, now: Time)
    ensures db.txs.Keys <= ApplyChanges(db, changes, now).txs.Keys
    decreases |changes|
  {
    if changes != [] {
      ChangeAdds(db, changes[0], now);
      ChangesAdd(ApplyChange(db, changes[0], now), changes[1..], now);
    }
  }

  lemma StepAdds(d: Device, step: Step)
    ensures EditsAdded(d.db, Next(d, step).db)
  {
    var db := d.db;
    if step.DoEdit? {
      if ApplyEdit(db, step.edit).Committed? { EditAdds(db, step.edit); }
    } else if step.DoMark? {
      if step.op < |db.ops| { MarkAdds(db, step.op, Interpret(db, step.op, step.answer), step.now); }
    } else if step.DoDiscard? {
      if Discard(db, step.op, step.now).Committed? { DiscardAdds(db, step.op, step.now); }
    } else if step.DoResolve? {
      if Resolve(db, step.id, step.shown, step.resolution, step.signing).Committed? {
        ResolveAdds(db, step.id, step.shown, step.resolution, step.signing);
      }
    } else if step.DoPullPage? {
      if d.pull.Some? {
        var page := PullPage(d.log, d.pull.value, step.limit);
        ChangesAdd(db, Changes(d.log[page.start..page.end]), step.now);
        ApplyChangesQuiet(db, Changes(d.log[page.start..page.end]), step.now);
      }
    }
  }

  lemma {:induction false} RunsCreateFirst(steps: seq<Step>)
    ensures CreatesFirst(Run(NEW_DEVICE, steps).db)
    decreases |steps|
  {
    if steps != [] {
      RunsCreateFirst(steps[..|steps| - 1]);
      StepAdds(Run(NEW_DEVICE, steps[..|steps| - 1]), steps[|steps| - 1]);
      AddedKeepsCreates(Run(NEW_DEVICE, steps[..|steps| - 1]).db, Run(NEW_DEVICE, steps).db);
    }
  }

  // ----- the conflict stands -----

  /** Edit `p` of `key` was answered with a payment conflict whose snapshot `kept` is stored; it and
      every edit behind it is rejected, and nothing before it blocks. */
  ghost predicate Standing(db: Db, key: Key, p: OpId, kept: Snapshot) {
    && p < |db.ops| && RejectedEdit(db.ops[p], key) && MarksPaymentConflict(db.ops[p])
    && key in db.txs
    && (forall j :: 0 <= j < p && db.ops[j].key == key ==> !Blocks(db.ops[j]))
    && (forall j :: EditOf(db.ops, j, key) && j >= p ==>
       db.ops[j].signed.action != Create && RejectedEdit(db.ops[j], key))
    && !HasState(db.ops, key, Conflict)
    && LastConflictAudit(db.audits, key, p) == Some(kept)
  }

  /** The snapshot that a payment conflict brings, as it is stored. */
  function KeptSnapshot(result: MarkResult): Snapshot
    requires result.MarkPaymentConflict?
  {
    Authoritative(result.authoritative, result.status, result.confirmed)
  }

  lemma PrefixIsPrefix(message: string)
    ensures HasPaymentPrefix(PAYMENT_CONFLICT_PREFIX + message)
  {
  }

  lemma AnswerStands(d: Device, p: OpId, result: MarkResult, now: Time)
    requires Ordered(d) && CreatesFirst(d.db) && p in d.inFlight && result.MarkPaymentConflict?
    requires d.db.ops[p].OnTransaction() && d.db.ops[p].signed.action != Create
    ensures Standing(Mark(d.db, p, result, now), d.db.ops[p].key, p, KeptSnapshot(result))
  {
    var db, next, key := d.db, Mark(d.db, p, result, now), d.db.ops[p].key;
    MarkWritesRows(db, p, result, now);
    PrefixIsPrefix(result.message);
    assert next.ops[p] == Reject(db.ops[p], PAYMENT_CONFLICT_PREFIX + result.message);
    assert next.audits[..|db.audits|] == db.audits;
    assert LastConflictAudit(next.audits, key, p) == Some(KeptSnapshot(result));
    assert forall j :: p < j < |db.ops| && db.ops[j].key == key ==> db.ops[j].state == Pending;
    RowsStand(db, next, key, p, CascadeMessage(result));
  }

  lemma RowsStand(db: Db, next: Db, key: Key, p: OpId, message: string)
    requires CreatesFirst(db) && EditOf(db.ops, p, key) && db.ops[p].signed.action != Create
    requires MarkRows(db.ops, next.ops, p, message) && next.ops[p].state == Rejected
    requires forall j :: p < j < |db.ops| && db.ops[j].key == key ==> db.ops[j].state == Pending
    requires forall j :: 0 <= j < p && db.ops[j].key == key ==> !Blocks(db.ops[j])
    ensures forall j :: 0 <= j < p && next.ops[j].key == key ==> !Blocks(next.ops[j])
    ensures forall j :: EditOf(next.ops, j, key) && j >= p ==>
      next.ops[j].signed.action != Create && RejectedEdit(next.ops[j], key)
    ensures !HasState(next.ops, key, Conflict)
  {
    forall j | EditOf(next.ops, j, key) && j >= p
      ensures next.ops[j].signed.action != Create && RejectedEdit(next.ops[j], key)
    {
      assert EditOf(db.ops, j, key);
    }
  }

  lemma StandsOn(db: Db, next: Db, key: Key, p: OpId, kept: Snapshot)
    requires Standing(db, key, p, kept) && key in next.txs && EvidenceKept(db.ops, next.ops)
    requires LastConflictAudit(next.audits, key, p) == LastConflictAudit(db.audits, key, p)
    requires forall j :: 0 <= j < |db.ops| && db.ops[j].key == key ==>
               || next.ops[j] == db.ops[j].(quarantine := next.ops[j].quarantine)
               || (j > p && !db.ops[j].OnTransaction() && next.ops[j].state != Conflict)
    requires forall j :: |db.ops| <= j < |next.ops| && next.ops[j].key == key ==>
      !next.ops[j].OnTransaction() && next.ops[j].state == Pending
    ensures Standing(next, key, p, kept)
  {
    forall j | EditOf(next.ops, j, key) && j >= p
      ensures next.ops[j].signed.action != Create && RejectedEdit(next.ops[j], key)
    {
      assert EditOf(db.ops, j, key);
    }
    assert forall j :: 0 <= j < |db.ops| && db.ops[j].key == key ==> db.ops[j].state != Conflict;
  }

  /** A record about anything else does not hide the stored snapshot. */
  lemma OtherAudit(audits: seq<Audit>, audit: Audit, key: Key, p: OpId)
    requires audit.PaymentConflictKept? ==> audit.op != p
    ensures LastConflictAudit(audits + [audit], key, p) == LastConflictAudit(audits, key, p)
  {
    assert (audits + [audit])[..|audits|] == audits;
  }

  lemma EditLeavesStanding(db: Db, edit: Edit, key: Key, p: OpId, kept: Snapshot)
    requires Standing(db, key, p, kept) && ApplyEdit(db, edit).Committed?
    ensures Standing(ApplyEdit(db, edit).db, key, p, kept)
  {
    var next := ApplyEdit(db, edit).db;
    EditsAppend(db, edit);
    assert TerminalBlock(db.ops, key);
    OnlyPrintsAppended(db, edit, key);
    EditAddsPaymentAudit(db, edit);
    if next.audits != db.audits { OtherAudit(db.audits, next.audits[|db.audits|], key, p); }
    StandsOn(db, next, key, p, kept);
  }

  lemma EditAddsPaymentAudit(db: Db, edit: Edit)
    requires ApplyEdit(db, edit).Committed?
    ensures var next := ApplyEdit(db, edit).db;
      next.audits == db.audits || exists audit: Audit :: audit.PaymentChanged? && next.audits == db.audits + [audit]
  {
  }

  lemma MarkLeavesStanding(d: Device, i: OpId, result: MarkResult, now: Time, key: Key, p: OpId, kept: Snapshot)
    requires Ordered(d) && Standing(d.db, key, p, kept) && i in d.inFlight
    ensures Standing(Mark(d.db, i, result, now), key, p, kept)
  {
    var next := Mark(d.db, i, result, now);
    assert Blocks(d.db.ops[p]);
    assert d.db.ops[i].key != key;
    MarkWritesRows(d.db, i, result, now);
    MarkShape(d.db, i, result, now);
    MarkKeepsTxs(d.db, i, result, now, key);
    MarkAudits(d.db, i, result, now);
    if next.audits != d.db.audits { OtherAudit(d.db.audits, next.audits[|d.db.audits|], key, p); }
    StandsOn(d.db, next, key, p, kept);
  }

  lemma ResolveLeavesStanding(db: Db, id: nat, shown: ConflictRow, resolution: Resolution, signing: Signing,
                              key: Key, p: OpId, kept: Snapshot)
    requires Standing(db, key, p, kept) && Resolve(db, id, shown, resolution, signing).Committed?
    ensures Standing(Resolve(db, id, shown, resolution, signing).db, key, p, kept)
  {
    var next := Resolve(db, id, shown, resolution, signing).db;
    var source := ConflictSource(db.ops, shown.key, 0).value;
    assert shown.key != key;
    ResolveAuditsKept(db, id, shown, resolution, signing);
    ResolveRows(db, id, shown, resolution, signing, key);
    OtherKeyRows(db, next, source, shown.key, key);
    StandsOn(db, next, key, p, kept);
  }

  lemma ResolveAuditsKept(db: Db, id: nat, shown: ConflictRow, resolution: Resolution, signing: Signing)
    requires Resolve(db, id, shown, resolution, signing).Committed?
    ensures Resolve(db, id, shown, resolution, signing).db.audits == db.audits
  {
  }

  lemma DiscardOfStanding(db: Db, i: OpId, now: Time, key: Key, p: OpId, kept: Snapshot)
    requires Standing(db, key, p, kept) && Discard(db, i, now).Committed?
    ensures var next := Discard(db, i, now).db; Standing(next, key, p, kept) || Discharged(db.ops, next.ops, key)
  {
    DiscardFrame(db, i, now);
    DiscardQuiet(db, i, now);
    ShapedDiscardOfStanding(db, Discard(db, i, now).db, i, key, p, kept);
  }

  lemma ShapedDiscardOfStanding(db: Db, next: Db, i: OpId, key: Key, p: OpId, kept: Snapshot)
    requires Standing(db, key, p, kept) && DiscardShape(db, next, i) && EvidenceKept(db.ops, next.ops)
    ensures Standing(next, key, p, kept) || Discharged(db.ops, next.ops, key)
  {
    if next != db && !EditOf(db.ops, i, key) {
      assert db.ops[i].key == key ==> Blocks(db.ops[i]);
      StandsOn(db, next, key, p, kept);
    }
  }

  lemma PullFreeStepOfStanding(d: Device, step: Step, key: Key, p: OpId, kept: Snapshot)
    requires Ordered(d) && Standing(d.db, key, p, kept) && !step.DoPullPage?
    ensures Standing(Next(d, step).db, key, p, kept) || Discharged(d.db.ops, Next(d, step).db.ops, key)
  {
    var db := d.db;
    if step.DoEdit? {
      if ApplyEdit(db, step.edit).Committed? { EditLeavesStanding(db, step.edit, key, p, kept); }
    } else if step.DoMark? {
      if step.op in d.inFlight {
        MarkLeavesStanding(d, step.op, Interpret(db, step.op, step.answer), step.now, key, p, kept);
      }
    } else if step.DoDiscard? {
      if Discard(db, step.op, step.now).Committed? { DiscardOfStanding(db, step.op, step.now, key, p, kept); }
    } else if step.DoResolve? {
      if Resolve(db, step.id, step.shown, step.resolution, step.signing).Committed? {
        ResolveLeavesStanding(db, step.id, step.shown, step.resolution, step.signing, key, p, kept);
      }
    } else if step.DoQuarantine? || step.DoRelease? {
      StepKeepsOrder(d, step);
      StandsOn(db, Next(d, step).db, key, p, kept);
    }
  }

  lemma {:induction false} StandsThroughRun(d: Device, steps: seq<Step>, key: Key, p: OpId, kept: Snapshot)
    requires Ordered(d) && Standing(d.db, key, p, kept) && PullFree(steps)
    ensures var later := Run(d, steps); Standing(later.db, key, p, kept) || Discharged(d.db.ops, later.db.ops, key)
    decreases |steps|
  {
    if steps != [] {
      var mid, step := Run(d, steps[..|steps| - 1]), steps[|steps| - 1];
      OrderedRun(d, steps[..|steps| - 1]);
      StandsThroughRun(d, steps[..|steps| - 1], key, p, kept);
      StepKeepsOrder(mid, step);
      RowsKept(d, steps[..|steps| - 1]);
      if Standing(mid.db, key, p, kept) {
        PullFreeStepOfStanding(mid, step, key, p, kept);
        if Discharged(mid.db.ops, Next(mid, step).db.ops, key) {
          DischargedLater(d.db, mid.db, Next(mid, step).db.ops, key, p, kept);
        }
      }
    }
  }

  lemma DischargedLater(db: Db, mid: Db, later: seq<Op>, key: Key, p: OpId, kept: Snapshot)
    requires Standing(db, key, p, kept) && Standing(mid, key, p, kept)
    requires EvidenceKept(db.ops, mid.ops) && Discharged(mid.ops, later, key)
    ensures Discharged(db.ops, later, key)
  {
    forall j | EditOf(db.ops, j, key) && db.ops[j].state == Rejected ensures later[j].state == Resolved {
      assert EditOf(mid.ops, j, key);
      assert j < p ==> !Blocks(db.ops[j]);
    }
  }

  // ----- discarding -----

  lemma StandingRows(db: Db, key: Key, p: OpId, kept: Snapshot)
    requires Standing(db, key, p, kept)
    ensures var rows := RejectedRows(db.ops, key, |db.ops|);
      && rows != [] && rows[0] == p
      && (forall x :: 0 <= x < |rows| ==> rows[x] < |db.ops| && EditOf(db.ops, rows[x], key) && rows[x] >= p)
  {
    var rows := RejectedRows(db.ops, key, |db.ops|);
    assert p in rows;
    forall x | 0 <= x < |rows| ensures EditOf(db.ops, rows[x], key) && rows[x] >= p {
      assert RejectedEdit(db.ops[rows[x]], key);
      assert Blocks(db.ops[rows[x]]);
    }
    var x :| 0 <= x < |rows| && rows[x] == p;
  }

  lemma StandingRecovery(db: Db, key: Key, p: OpId, kept: Snapshot, rows: seq<OpId>, now: Time)
    requires Standing(db, key, p, kept)
    requires rows != [] && rows[0] == p && forall x :: 0 <= x < |rows| ==>
      rows[x] < |db.ops| && EditOf(db.ops, rows[x], key) && rows[x] >= p
    ensures Recover(db, key, rows, now) == RecoverAuthoritative(db, key, rows, p)
  {
    assert FirstPaymentConflict(db.ops, rows) == Some(p);
  }

  lemma AuthoritativeIsUndone(db: Db, key: Key, rows: seq<OpId>, p: OpId, kept: Snapshot)
    requires forall x :: 0 <= x < |rows| ==> rows[x] < |db.ops|
    requires LastConflictAudit(db.audits, key, p) == Some(kept)
    ensures var r := RecoverAuthoritative(db, key, rows, p);
      r.Committed? && UndoneTo(r.db.(ops := ResolveTerminal(r.db.ops, key)), key, kept)
  {
    CutIsUndone(DropCorrections(db, key, rows), key, kept);
  }

  lemma CutIsUndone(db: Db, key: Key, kept: Snapshot)
    ensures var next := DropFrom(Replace(db, key, WithSync(kept, SyncSynced)), key, kept.row.revision + 1);
      UndoneTo(next.(ops := ResolveTerminal(next.ops, key)), key, kept)
  {
  }

  /** The stored revisions that the rejected corrections wrote are gone. */
  ghost predicate Forgotten(db: Db, next: Db, key: Key) {
    forall r :: (key, r) in next.revs ==>
      forall j :: 0 <= j < |db.ops| && RejectedEdit(db.ops[j], key) && CorrectedRevision(db.ops[j]).Some? ==>
        r < CorrectedRevision(db.ops[j]).value
  }

  lemma {:induction false} FirstIsLeast(ops: seq<Op>, rows: seq<OpId>, x: nat)
    requires forall y :: 0 <= y < |rows| ==> rows[y] < |ops|
    requires x < |rows| && CorrectedRevision(ops[rows[x]]).Some?
    ensures FirstCorrection(ops, rows).Some?
      && FirstCorrection(ops, rows).value <= CorrectedRevision(ops[rows[x]]).value
    decreases |rows|
  {
    if x > 0 {
      assert rows[1..][x - 1] == rows[x];
      FirstIsLeast(ops, rows[1..], x - 1);
    }
  }

  lemma AuthoritativeForgets(db: Db, key: Key, rows: seq<OpId>, p: OpId)
    requires rows == RejectedRows(db.ops, key, |db.ops|) && RecoverAuthoritative(db, key, rows, p).Committed?
    ensures Forgotten(db, RecoverAuthoritative(db, key, rows, p).db, key)
  {
    var next := RecoverAuthoritative(db, key, rows, p).db;
    forall r, j | (key, r) in next.revs && 0 <= j < |db.ops| && RejectedEdit(db.ops[j], key)
        && CorrectedRevision(db.ops[j]).Some?
      ensures r < CorrectedRevision(db.ops[j]).value
    {
      assert j in rows;
      var x :| 0 <= x < |rows| && rows[x] == j;
      FirstIsLeast(db.ops, rows, x);
    }
  }

  lemma DiscardingKeepsServer(db: Db, key: Key, p: OpId, kept: Snapshot, x: OpId, now: Time)
    requires Standing(db, key, p, kept)
    requires EditOf(db.ops, x, key) && db.ops[x].state == Rejected && !QuarantinedKey(db.ops, key)
    ensures Discard(db, x, now).Committed? && UndoneTo(Discard(db, x, now).db, key, kept)
    ensures Forgotten(db, Discard(db, x, now).db, key)
  {
    var rows := RejectedRows(db.ops, key, |db.ops|);
    StandingRows(db, key, p, kept);
    StandingRecovery(db, key, p, kept, rows, now);
    AuthoritativeIsUndone(db, key, rows, p, kept);
    AuthoritativeForgets(db, key, rows, p);
    DiscardOfEdit(db, key, rows, x, now);
  }

  /** In every reachable device: when the server answers a sent edit that is no create with a payment
      conflict, then after any run without pulls, discarding any edit rejected by that answer leaves
      exactly the snapshot the server sent, with no revision or item above it, no stored revision that
      a rejected correction wrote, and nothing rejected. */
  lemma PaymentConflictKeepsServer(before: seq<Step>, p: OpId, answer: Answer, at: Time, after: seq<Step>, x: OpId,
      now: Time)
    requires var sent := Run(NEW_DEVICE, before);
      && p in sent.inFlight && p < |sent.db.ops| && sent.db.ops[p].OnTransaction()
         && sent.db.ops[p].signed.action != Create
      && Interpret(sent.db, p, answer).MarkPaymentConflict? && PullFree(after)
      && var key := sent.db.ops[p].key;
      && var answered := Next(sent, DoMark(p, answer, at));
      && EditOf(answered.db.ops, x, key) && answered.db.ops[x].state == Rejected
      && var last := Run(answered, after);
      && x < |last.db.ops| && last.db.ops[x].state == Rejected && !QuarantinedKey(last.db.ops, key)
    ensures var sent := Run(NEW_DEVICE, before);
      var last := Run(Next(sent, DoMark(p, answer, at)), after);
      && Discard(last.db, x, now).Committed?
      && UndoneTo(Discard(last.db, x, now).db, sent.db.ops[p].key, KeptSnapshot(Interpret(sent.db, p, answer)))
      && Forgotten(last.db, Discard(last.db, x, now).db, sent.db.ops[p].key)
  {
    var sent := Run(NEW_DEVICE, before);
    var key, result := sent.db.ops[p].key, Interpret(sent.db, p, answer);
    RunsAreOrdered(before);
    RunsCreateFirst(before);
    AnswerStands(sent, p, result, at);
    var answered := Next(sent, DoMark(p, answer, at));
    StepKeepsOrder(sent, DoMark(p, answer, at));
    assert Standing(answered.db, key, p, KeptSnapshot(result));
    StandsToTheEnd(answered, after, Run(answered, after), key, p, KeptSnapshot(result), x);
    DiscardingKeepsServer(Run(answered, after).db, key, p, KeptSnapshot(result), x, now);
  }

  lemma StandsToTheEnd(answered: Device, after: seq<Step>, last: Device, key: Key, p: OpId, kept: Snapshot, x: OpId)
    requires Ordered(answered) && Standing(answered.db, key, p, kept) && PullFree(after) && last == Run(answered, after)
    requires EditOf(answered.db.ops, x, key) && answered.db.ops[x].state == Rejected
    requires x < |last.db.ops| && last.db.ops[x].state == Rejected
    ensures Standing(last.db, key, p, kept) && EditOf(last.db.ops, x, key)
  {
    StandsThroughRun(answered, after, key, p, kept);
    RowsKept(answered, after);
  }
}
