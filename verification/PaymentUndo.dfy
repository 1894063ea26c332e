/** Undoing a refused payment decision: its snapshot is found by the time of the decision alone. */
module PaymentUndo {
  import opened LocalTables
  import opened Repository
  import opened Device
  import opened Frames
  import opened InOrder
  import opened Undo

  // ----- the audit that discarding reads -----

  predicate IsDecision(audit: Audit, key: Key) { audit.PaymentChanged? && audit.key == key }

  /** From audit row `n` on there is a decision of the key at that time. */
  predicate DecidedFrom(audits: seq<Audit>, n: nat, key: Key, at: Time) {
    exists a :: n <= a < |audits| && IsDecision(audits[a], key) && audits[a].at == at
  }

  /** The newest decision of that time, at row `n` or later, is the one that is read. */
  lemma {:induction false} NewestIsRead(audits: seq<Audit>, n: nat, key: Key, at: Time) returns (a: nat)
    requires n < |audits| && IsDecision(audits[n], key) && audits[n].at == at
    ensures n <= a < |audits| && IsDecision(audits[a], key) && audits[a].at == at
    ensures LastPaymentAudit(audits, key, at) == Some(audits[a].before)
    ensures a == n <==> !DecidedFrom(audits, n + 1, key, at)
    decreases |audits|
  {
    var cut := |audits| - 1;
    if IsDecision(audits[cut], key) && audits[cut].at == at {
      a := cut;
    } else {
      a := NewestIsRead(audits[..cut], n, key, at);
      if k :| n + 1 <= k < |audits| && IsDecision(audits[k], key) && audits[k].at == at {
        assert audits[..cut][k] == audits[k];
      }
      if k :| n + 1 <= k < cut && IsDecision(audits[..cut][k], key) && audits[..cut][k].at == at {
        assert audits[k] == audits[..cut][k];
      }
    }
  }

  // ----- what later decisions start from -----

  /** The row is no longer the one before the decision. */
  predicate Departed(row: Txn, origin: Txn) {
    row.revision > origin.revision || (row.paymentStatus == PaymentFailed && origin.paymentStatus != PaymentFailed)
  }

  predicate ConfirmedRow(row: Txn) {
    row.paymentStatus == PaymentSuccess && row.confirmedRevision == Some(row.revision)
  }

  /** Row `n` is the audit of the decision; every later decision of the key started from another row. */
  predicate Watched(audits: seq<Audit>, key: Key, n: nat, origin: Snapshot, at: Time) {
    && n < |audits| && IsDecision(audits[n], key) && audits[n].at == at && audits[n].before == origin
    && forall a :: n < a < |audits| && IsDecision(audits[a], key) ==> Departed(audits[a].before.row, origin.row)
  }

  predicate Ahead(db: Db, key: Key, origin: Snapshot) {
    && key in db.txs && db.txs[key].revision >= origin.row.revision
    && (Departed(db.txs[key], origin.row) || ConfirmedRow(db.txs[key]))
  }

  /** The audits are kept, and at most one is added that is no decision of the key. */
  predicate NoDecision(audits: seq<Audit>, later: seq<Audit>, key: Key) {
    later == audits || (|later| == |audits| + 1 && later[..|audits|] == audits && !IsDecision(later[|audits|], key))
  }

  lemma WatchedGoesOn(audits: seq<Audit>, later: seq<Audit>, key: Key, n: nat, origin: Snapshot, at: Time)
    requires Watched(audits, key, n, origin, at) && NoDecision(audits, later, key)
    ensures Watched(later, key, n, origin, at)
  {
    assert forall a :: 0 <= a < |audits| ==> later[a] == audits[a];
  }

  /** The fields of the row that a decision looks at. */
  predicate SamePayment(row: Txn, next: Txn) {
    next.revision == row.revision && next.paymentStatus == row.paymentStatus
      && next.confirmedRevision == row.confirmedRevision
  }

  lemma DecisionStarts(db: Db, edit: Edit)
    requires edit.EditPayment? && ApplyEdit(db, edit).Committed? && |ApplyEdit(db, edit).db.ops| > |db.ops|
    ensures var next := ApplyEdit(db, edit).db;
      && edit.key in db.txs
      && Watched(next.audits, edit.key, |db.audits|, Hydrate(db, edit.key), edit.signing.now)
      && Ahead(next, edit.key, Hydrate(db, edit.key))
      && |next.ops| == |db.ops| + 1
      && next.ops[|db.ops|].signed.action == SetPayment && next.ops[|db.ops|].signed.occurredAt == edit.signing.now
  {
  }

  // ----- while the decision is unsent -----

  lemma EditStaysAhead(db: Db, edit: Edit, key: Key, n: nat, origin: Snapshot, at: Time)
    requires Watched(db.audits, key, n, origin, at) && Ahead(db, key, origin) && ApplyEdit(db, edit).Committed?
    ensures var next := ApplyEdit(db, edit).db;
      Watched(next.audits, key, n, origin, at) && Ahead(next, key, origin)
  {
    var next := ApplyEdit(db, edit).db;
    if edit.EditPayment? && edit.key == key {
      OwnDecisionStaysAhead(db, edit, n, origin, at);
    } else {
      OtherEditFrame(db, edit, key);
      WatchedGoesOn(db.audits, next.audits, key, n, origin, at);
    }
  }

  lemma OtherEditFrame(db: Db, edit: Edit, key: Key)
    requires key in db.txs && ApplyEdit(db, edit).Committed? && !(edit.EditPayment? && edit.key == key)
    ensures var next := ApplyEdit(db, edit).db;
      && NoDecision(db.audits, next.audits, key) && key in next.txs
      && (SamePayment(db.txs[key], next.txs[key])
          || (ConfirmedRow(next.txs[key]) && next.txs[key].revision == db.txs[key].revision + 1))
  {
  }

  lemma OwnDecisionStaysAhead(db: Db, edit: Edit, n: nat, origin: Snapshot, at: Time)
    requires edit.EditPayment? && ApplyEdit(db, edit).Committed?
    requires Watched(db.audits, edit.key, n, origin, at) && Ahead(db, edit.key, origin)
    ensures var next := ApplyEdit(db, edit).db;
      Watched(next.audits, edit.key, n, origin, at) && Ahead(next, edit.key, origin)
  {
    var next := ApplyEdit(db, edit).db;
    assert forall a :: 0 <= a < |db.audits| ==> next.audits[a] == db.audits[a];
  }

  /** An answer that leaves a later operation of the key unsent leaves its payment state. */
  lemma MarkFrame(d: Device, i: OpId, result: MarkResult, now: Time, key: Key, p: OpId)
    requires Ordered(d) && i in d.inFlight && key in d.db.txs
    requires p < |d.db.ops| && d.db.ops[p].key == key && d.db.ops[p].Unsent()
    requires Mark(d.db, i, result, now).ops[p].Unsent()
    ensures var next := Mark(d.db, i, result, now);
      NoDecision(d.db.audits, next.audits, key) && key in next.txs && SamePayment(d.db.txs[key], next.txs[key])
  {
    assert d.db.ops[i].key == key && i != p ==> i < p;
  }

  lemma DiscardedFrame(db: Db, next: Db, i: OpId, key: Key)
    requires DiscardShape(db, next, i) && key in db.txs
    requires forall j :: EditOf(db.ops, j, key) ==> db.ops[j].state != Rejected
    ensures next.audits == db.audits && key in next.txs && SamePayment(db.txs[key], next.txs[key])
  {
    if next != db && db.ops[i].OnTransaction() { assert !EditOf(db.ops, i, key); }
  }

  lemma ResolvedFrame(db: Db, id: nat, shown: ConflictRow, resolution: Resolution, signing: Signing, key: Key)
    requires Resolve(db, id, shown, resolution, signing).Committed? && key in db.txs && shown.key != key
    ensures var next := Resolve(db, id, shown, resolution, signing).db;
      next.audits == db.audits && key in next.txs && next.txs[key] == db.txs[key]
  {
  }

  /** A step that is no edit and leaves the decision unsent. */
  lemma OtherStepFrame(d: Device, step: Step, key: Key, p: OpId, origin: Snapshot)
    requires Ordered(d) && Chain(d.db, key, p, origin) && !step.DoPullPage? && !step.DoEdit?
    requires p < |Next(d, step).db.ops| && Next(d, step).db.ops[p].Unsent()
    ensures var next := Next(d, step).db;
      NoDecision(d.db.audits, next.audits, key) && key in next.txs && SamePayment(d.db.txs[key], next.txs[key])
  {
    var db := d.db;
    NoRefusedEdit(d, key, p, origin);
    if step.DoMark? {
      if step.op in d.inFlight { MarkFrame(d, step.op, Interpret(db, step.op, step.answer), step.now, key, p); }
    } else if step.DoDiscard? {
      if Discard(db, step.op, step.now).Committed? {
        DiscardFrame(db, step.op, step.now);
        DiscardedFrame(db, Discard(db, step.op, step.now).db, step.op, key);
      }
    } else if step.DoResolve? {
      if Resolve(db, step.id, step.shown, step.resolution, step.signing).Committed? {
        ResolvedElsewhere(db, step.id, step.shown, step.resolution, step.signing, key);
        ResolvedFrame(db, step.id, step.shown, step.resolution, step.signing, key);
      }
    }
  }

  lemma ResolvedElsewhere(db: Db, id: nat, shown: ConflictRow, resolution: Resolution, signing: Signing, key: Key)
    requires Resolve(db, id, shown, resolution, signing).Committed?
    requires forall j :: EditOf(db.ops, j, key) ==> db.ops[j].state != Conflict
    ensures shown.key != key
  {
    var source := ConflictSource(db.ops, shown.key, 0).value;
    assert shown.key == key ==> EditOf(db.ops, source, key);
  }

  lemma StepStaysAhead(d: Device, step: Step, key: Key, p: OpId, n: nat, origin: Snapshot, at: Time)
    requires Ordered(d) && Chain(d.db, key, p, origin) && !step.DoPullPage?
    requires p < |Next(d, step).db.ops| && Next(d, step).db.ops[p].Unsent()
    requires Watched(d.db.audits, key, n, origin, at) && Ahead(d.db, key, origin)
    ensures var next := Next(d, step).db;
      Watched(next.audits, key, n, origin, at) && Ahead(next, key, origin)
  {
    if step.DoEdit? {
      if ApplyEdit(d.db, step.edit).Committed? { EditStaysAhead(d.db, step.edit, key, n, origin, at); }
    } else {
      OtherStepFrame(d, step, key, p, origin);
      WatchedGoesOn(d.db.audits, Next(d, step).db.audits, key, n, origin, at);
    }
  }

  lemma {:induction false} AheadThroughRun(d: Device, steps: seq<Step>, key: Key, p: OpId, n: nat, origin: Snapshot,
      at: Time)
    requires Ordered(d) && Chain(d.db, key, p, origin) && PullFree(steps)
    requires p < |Run(d, steps).db.ops| && Run(d, steps).db.ops[p].Unsent()
    requires Watched(d.db.audits, key, n, origin, at) && Ahead(d.db, key, origin)
    ensures var last := Run(d, steps).db; Watched(last.audits, key, n, origin, at) && Ahead(last, key, origin)
    decreases |steps|
  {
    if steps != [] {
      var mid, step := Run(d, steps[..|steps| - 1]), steps[|steps| - 1];
      OrderedRun(d, steps[..|steps| - 1]);
      StepKeepsOrder(mid, step);
      ChainThroughRun(d, steps[..|steps| - 1], key, p, origin);
      AheadThroughRun(d, steps[..|steps| - 1], key, p, n, origin, at);
      StepStaysAhead(mid, step, key, p, n, origin, at);
    }
  }

  // ----- after the refusal -----

  lemma EditWhileBlocked(db: Db, edit: Edit, key: Key)
    requires TerminalBlock(db.ops, key) && ApplyEdit(db, edit).Committed?
    ensures NoDecision(db.audits, ApplyEdit(db, edit).db.audits, key)
  {
  }

  lemma StepWhileRefused(d: Device, step: Step, key: Key, p: OpId, origin: Snapshot, message: string)
    requires Ordered(d) && Refused(d.db, key, p, origin, message) && !step.DoPullPage?
    ensures NoDecision(d.db.audits, Next(d, step).db.audits, key)
  {
    var db := d.db;
    if step.DoEdit? {
      assert TerminalBlock(db.ops, key);
      if ApplyEdit(db, step.edit).Committed? { EditWhileBlocked(db, step.edit, key); }
    } else if step.DoMark? {
      if step.op in d.inFlight { MarkAudits(db, step.op, Interpret(db, step.op, step.answer), step.now); }
    } else if step.DoDiscard? {
      DiscardFrame(db, step.op, step.now);
    } else if step.DoResolve? {
      ResolveAudits(db, step.id, step.shown, step.resolution, step.signing);
    }
  }

  lemma ResolveAudits(db: Db, id: nat, shown: ConflictRow, resolution: Resolution, signing: Signing)
    ensures var r := Resolve(db, id, shown, resolution, signing); r.Committed? ==> r.db.audits == db.audits
  {
  }

  /** What is rejected after a run was rejected before its last step. */
  lemma RejectedBefore(d: Device, steps: seq<Step>, step: Step, key: Key, p: OpId, origin: Snapshot, message: string,
      x: OpId)
    requires Ordered(d) && Refused(d.db, key, p, origin, message) && PullFree(steps)
    requires EditOf(d.db.ops, x, key) && d.db.ops[x].state == Rejected
    requires var later := Next(Run(d, steps), step).db.ops; x < |later| && later[x].state == Rejected
    ensures x < |Run(d, steps).db.ops| && Run(d, steps).db.ops[x].state == Rejected
  {
    var mid := Run(d, steps);
    OrderedRun(d, steps);
    RowsKept(d, steps);
    StepKeepsOrder(mid, step);
    RefusedThroughRun(d, steps, key, p, origin, message);
    if Refused(mid.db, key, p, origin, message) {
      RefusedTogether(d.db, mid.db, key, p, origin, message, x);
    }
  }

  lemma RefusedTogether(db: Db, mid: Db, key: Key, p: OpId, origin: Snapshot, message: string, x: OpId)
    requires Refused(db, key, p, origin, message) && EditOf(db.ops, x, key) && db.ops[x].state == Rejected
    requires Refused(mid, key, p, origin, message) && EvidenceKept(db.ops, mid.ops)
    ensures x < |mid.ops| && mid.ops[x].state == Rejected
  {
    assert x < p ==> !Blocks(db.ops[x]);
    assert EditOf(mid.ops, x, key);
  }

  lemma {:induction false} WatchedWhileRefused(d: Device, steps: seq<Step>, key: Key, p: OpId, n: nat,
      origin: Snapshot, at: Time, message: string, x: OpId)
    requires Ordered(d) && Refused(d.db, key, p, origin, message) && PullFree(steps)
    requires EditOf(d.db.ops, x, key) && d.db.ops[x].state == Rejected
    requires x < |Run(d, steps).db.ops| && Run(d, steps).db.ops[x].state == Rejected
    requires Watched(d.db.audits, key, n, origin, at)
    ensures Watched(Run(d, steps).db.audits, key, n, origin, at)
    decreases |steps|
  {
    if steps != [] {
      var cut := steps[..|steps| - 1];
      var mid, step := Run(d, cut), steps[|steps| - 1];
      OrderedRun(d, cut);
      RejectedBefore(d, cut, step, key, p, origin, message, x);
      RefusedStays(d, cut, mid, key, p, origin, message, x);
      WatchedWhileRefused(d, cut, key, p, n, origin, at, message, x);
      StepWhileRefused(mid, step, key, p, origin, message);
      WatchedGoesOn(mid.db.audits, Next(mid, step).db.audits, key, n, origin, at);
    }
  }

  // ----- the theorem -----

  lemma WatchedAtEnd(start: Device, first: Edit, during: seq<Step>, answer: Answer, message: string, at: Time,
                     after: seq<Step>, x: OpId)
    requires Ordered(start) && first.EditPayment? && RefusedAt(start, first, during, answer, message, at, after, x)
    ensures first.key in start.db.txs
    ensures Watched(LastOf(start, first, during, answer, at, after).db.audits, first.key, |start.db.audits|,
      Hydrate(start.db, first.key), first.signing.now)
  {
    var key, p, n, decided := first.key, |start.db.ops|, |start.db.audits|, first.signing.now;
    ChainStarts(start.db, first);
    DecisionStarts(start.db, first);
    var origin, edited := Hydrate(start.db, key), Next(start, DoEdit(first));
    StepKeepsOrder(start, DoEdit(first));
    var sent := Run(edited, during);
    var refused := Next(sent, DoMark(p, answer, at));
    ChainIsRefusedInRun(edited, during, sent, refused, key, p, origin, answer, message, at);
    AheadThroughRun(edited, during, key, p, n, origin, decided);
    MarkAudits(sent.db, p, MarkRejected(message), at);
    WatchedGoesOn(sent.db.audits, refused.db.audits, key, n, origin, decided);
    WatchedWhileRefused(refused, after, key, p, n, origin, decided, message, x);
  }

  lemma OtherSnapshot(db: Db, key: Key, stored: Snapshot, origin: Snapshot)
    requires UndoneTo(db, key, stored) && Departed(stored.row, origin.row)
    ensures !UndoneTo(db, key, origin)
  {
    assert Hydrate(db, key).row.revision == stored.row.revision;
    assert Hydrate(db, key).row.paymentStatus == stored.row.paymentStatus;
  }

  /** `first` is a payment decision in a reachable device that wrote an operation, and the server
      refuses it. With the payment-conflict prefix in the refusal the discard always rolls back.
      Otherwise it succeeds, and it restores the transaction as it was before the decision exactly if
      no later decision of the transaction carries the same time, by which the audit is looked up. */
  lemma ExactPaymentUndo(before: seq<Step>, first: Edit, during: seq<Step>, answer: Answer, message: string, at: Time,
                         after: seq<Step>, x: OpId, now: Time)
    requires first.EditPayment? && RefusedAt(Run(NEW_DEVICE, before), first, during, answer, message, at, after, x)
    ensures var start := Run(NEW_DEVICE, before);
      var last := LastOf(start, first, during, answer, at, after);
      && first.key in start.db.txs
      && (if HasPaymentPrefix(message) then Discard(last.db, x, now) == RolledBack
          else
            && Discard(last.db, x, now).Committed?
            && (UndoneTo(Discard(last.db, x, now).db, first.key, Hydrate(start.db, first.key))
                <==> !DecidedFrom(last.db.audits, |start.db.audits| + 1, first.key, first.signing.now)))
  {
    var start := Run(NEW_DEVICE, before);
    var key, n, decided := first.key, |start.db.audits|, first.signing.now;
    RunsAreOrdered(before);
    DiscardGoesBack(before, first, during, answer, message, at, after, x, now);
    RefusedAtEnd(start, first, during, answer, message, at, after, x);
    WatchedAtEnd(start, first, during, answer, message, at, after, x);
    DecisionStarts(start.db, first);
    var last := LastOf(start, first, during, answer, at, after);
    var a := NewestIsRead(last.db.audits, n, key, decided);
    if !HasPaymentPrefix(message) && a != n {
      OtherSnapshot(Discard(last.db, x, now).db, key, last.db.audits[a].before, Hydrate(start.db, key));
    }
  }
}
