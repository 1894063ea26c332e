/** In-order settlement of the outbox, over every run of a device. */
module InOrder {
  import opened LocalTables
  import opened Repository
  import opened Device
  import opened Frames

  /** Once an operation of a key is unsent, every later one of that key is pending and was never fetched. */
  ghost predicate QueueOrdered(ops: seq<Op>, sent: set<OpId>) {
    forall i, j :: 0 <= i < j < |ops| && ops[i].key == ops[j].key && ops[i].Unsent() ==>
      ops[j].state == Pending && j !in sent
  }

  /** A fetched, unmarked operation is still unsent and everything before it on its key is settled. */
  ghost predicate FlightReady(ops: seq<Op>, inFlight: set<OpId>, sent: set<OpId>) {
    forall i :: i in inFlight ==>
      && i < |ops| && i in sent && ops[i].Unsent()
      && forall h :: 0 <= h < i && ops[h].key == ops[i].key ==> !Blocks(ops[h])
  }

  ghost predicate Ordered(d: Device) {
    && QueueOrdered(d.db.ops, d.sent)
    && FlightReady(d.db.ops, d.inFlight, d.sent)
    && (forall i :: i in d.sent ==> i < |d.db.ops|)
    && Explained(d.db.ops)
  }

  /** A rejected operation carries the reason. */
  ghost predicate Explained(ops: seq<Op>) {
    forall i :: 0 <= i < |ops| && ops[i].state == Rejected ==> ops[i].lastError.Some?
  }

  /** The signed evidence of every operation is kept: rows are only added, a row's JSON, signature
      and key never change, a settled row is never sent again and a resolved one stays resolved. */
  ghost predicate EvidenceKept(ops: seq<Op>, later: seq<Op>) {
    && |ops| <= |later|
    && forall i :: 0 <= i < |ops| ==>
         && later[i].signed == ops[i].signed && later[i].signature == ops[i].signature && later[i].key == ops[i].key
         && (later[i].Unsent() ==> ops[i].Unsent())
         && (ops[i].state == Resolved ==> later[i].state == Resolved)
  }

  /** No row joins or leaves the unsent ones and no settled row blocks again. */
  ghost predicate Quiet(ops: seq<Op>, later: seq<Op>) {
    && |ops| == |later|
    && EvidenceKept(ops, later)
    && forall i :: 0 <= i < |ops| ==>
         && (ops[i].Unsent() ==> later[i].state == ops[i].state)
         && (Blocks(later[i]) ==> Blocks(ops[i]))
         && (later[i].state == Rejected ==> ops[i].state == Rejected && later[i].lastError == ops[i].lastError)
  }

  lemma QuietKeepsOrder(d: Device, ops: seq<Op>)
    requires Ordered(d) && Quiet(d.db.ops, ops)
    ensures QueueOrdered(ops, d.sent) && FlightReady(ops, d.inFlight, d.sent) && Explained(ops)
  {
  }

  lemma AppendKeepsOrder(d: Device, op: Op)
    requires Ordered(d) && op.state == Pending
    ensures var ops := d.db.ops + [op];
      QueueOrdered(ops, d.sent) && FlightReady(ops, d.inFlight, d.sent) && Explained(ops)
  {
  }

  lemma QuietTransitive(a: seq<Op>, b: seq<Op>, c: seq<Op>)
    requires Quiet(a, b) && Quiet(b, c)
    ensures Quiet(a, c)
  {
    assert forall i :: 0 <= i < |a| && a[i].Unsent() ==> b[i].Unsent();
  }

  lemma ResolveTerminalQuiet(ops: seq<Op>, key: Key)
    ensures Quiet(ops, ResolveTerminal(ops, key))
  {
  }

  lemma ApplyChangeOps(db: Db, change: Change, now: Time)
    ensures ApplyChange(db, change, now).ops == db.ops
            || (Target(change).Some?
               && ApplyChange(db, change, now).ops == ResolveTerminal(db.ops, Target(change).value))
  {
  }

  lemma {:induction false} ApplyChangesQuiet(db: Db, changes: seq<Change>, now: Time)
    ensures Quiet(db.ops, ApplyChanges(db, changes, now).ops)
    decreases |changes|
  {
    if changes != [] {
      var mid := ApplyChange(db, changes[0], now);
      ApplyChangeOps(db, changes[0], now);
      if Target(changes[0]).Some? { ResolveTerminalQuiet(db.ops, Target(changes[0]).value); }
      ApplyChangesQuiet(mid, changes[1..], now);
      QuietTransitive(db.ops, mid.ops, ApplyChanges(mid, changes[1..], now).ops);
    }
  }

  lemma DiscardQuiet(db: Db, i: OpId, now: Time)
    ensures var r := Discard(db, i, now); r.Committed? ==> Quiet(db.ops, r.db.ops)
  {
    DiscardFrame(db, i, now);
    if i < |db.ops| { ResolveTerminalQuiet(db.ops, db.ops[i].key); }
  }

  /** The outbox after a resolution: perhaps one new pending row, the conflict closed, and the
      rejected rows of the key resolved. */
  lemma ResolveOps(db: Db, id: nat, shown: ConflictRow, resolution: Resolution, signing: Signing)
    ensures var r := Resolve(db, id, shown, resolution, signing);
      r.Committed? ==>
        && ConflictSource(db.ops, shown.key, 0).Some?
        && var source := ConflictSource(db.ops, shown.key, 0).value;
        && (r.db.ops == Closed(db.ops, source, shown.key)
            || exists op: Op :: op.state == Pending && r.db.ops == Closed(db.ops + [op], source, shown.key))
  {
  }

  function Closed(ops: seq<Op>, source: OpId, key: Key): (closed: seq<Op>)
    requires source < |ops|
    ensures |closed| == |ops|
  {
    ResolveRejected(ops[source := Settle(ops[source], Resolved)], key)
  }

  lemma ClosedQuiet(ops: seq<Op>, source: OpId, key: Key)
    requires source < |ops| && ops[source].state == Conflict
    ensures Quiet(ops, Closed(ops, source, key))
  {
  }

  predicate Halts(op: Op) { !op.Unsent() && op.state != Synced }

  /** Marking writes row `i`; other rows change only by the cascade, and only when `i` settles. */
  ghost predicate Marked(ops: seq<Op>, later: seq<Op>, i: OpId)
    requires i < |ops|
  {
    && |later| == |ops|
    && EvidenceKept(ops, later)
    && later[i].state != Pending
    && (Explained(ops) ==> Explained(later))
    && (forall j :: 0 <= j < |ops| && j != i ==>
          later[j] == ops[j]
          || (j > i && ops[j].key == ops[i].key && ops[j].Unsent() && later[j].state == Rejected && Halts(later[i])))
    && (Halts(later[i]) ==> forall j :: i < j < |ops| && ops[j].key == ops[i].key ==> !later[j].Unsent())
  }

  /** Row by row: row `i` gets its new state; if that halts the key, later unsent rows are rejected. */
  ghost predicate MarkRows(ops: seq<Op>, later: seq<Op>, i: OpId, message: string)
    requires i < |ops|
  {
    && |later| == |ops|
    && later[i].signed == ops[i].signed && later[i].signature == ops[i].signature && later[i].key == ops[i].key
    && later[i].quarantine == ops[i].quarantine
    && (later[i].state == Synced || later[i].state == Error || later[i].state == Conflict
       || (later[i].state == Rejected && later[i].lastError.Some?))
    && forall j :: 0 <= j < |ops| && j != i ==>
         later[j] == if Halts(later[i]) && j > i && ops[j].key == ops[i].key && ops[j].Unsent()
           then Reject(ops[j], message) else ops[j]
  }

  function CascadeMessage(result: MarkResult): string {
    match result
    case MarkRejected(message) => CASCADE_REJECTED + message
    case MarkPaymentConflict(message, _, _, _) => CASCADE_REJECTED + message
    case _ => CASCADE_CONFLICT
  }

  lemma MarkWritesRows(db: Db, i: OpId, result: MarkResult, now: Time)
    requires i < |db.ops|
    ensures MarkRows(db.ops, Mark(db, i, result, now).ops, i, CascadeMessage(result))
  {
  }

  lemma RowsAreMarked(ops: seq<Op>, later: seq<Op>, i: OpId, message: string)
    requires i < |ops| && ops[i].Unsent() && MarkRows(ops, later, i, message)
    ensures Marked(ops, later, i)
  {
  }

  lemma MarkShape(db: Db, i: OpId, result: MarkResult, now: Time)
    requires i < |db.ops| && db.ops[i].Unsent()
    ensures Marked(db.ops, Mark(db, i, result, now).ops, i)
  {
    MarkWritesRows(db, i, result, now);
    RowsAreMarked(db.ops, Mark(db, i, result, now).ops, i, CascadeMessage(result));
  }

  /** Recording an answer to an in-flight operation keeps the order, whatever the answer. */
  lemma MarkKeepsOrder(d: Device, i: OpId, result: MarkResult, now: Time)
    requires Ordered(d) && i in d.inFlight
    ensures Ordered(d.(db := Mark(d.db, i, result, now), inFlight := d.inFlight - {i}))
    ensures EvidenceKept(d.db.ops, Mark(d.db, i, result, now).ops)
  {
    MarkShape(d.db, i, result, now);
    MarkedKeepsOrder(d, i, Mark(d.db, i, result, now).ops);
  }

  lemma MarkedKeepsOrder(d: Device, i: OpId, later: seq<Op>)
    requires Ordered(d) && i in d.inFlight && Marked(d.db.ops, later, i)
    ensures QueueOrdered(later, d.sent) && FlightReady(later, d.inFlight - {i}, d.sent) && Explained(later)
  {
    var ops := d.db.ops;
    forall h, j | 0 <= h < j < |later| && later[h].key == later[j].key && later[h].Unsent()
      ensures later[j].state == Pending && j !in d.sent
    {
      assert ops[h].Unsent();
      if h != i {
        assert !(h < i && ops[h].key == ops[i].key);
        assert ops[j].state == Pending && j !in d.sent;
        assert later[j] == ops[j];
      }
    }
    forall k | k in d.inFlight - {i}
      ensures later[k].Unsent() && forall h :: 0 <= h < k && later[h].key == later[k].key ==> !Blocks(later[h])
    {
      assert ops[k].key != ops[i].key;
    }
  }

  lemma FetchKeepsOrder(d: Device, now: Time, limit: nat)
    requires Ordered(d)
    ensures Ordered(Next(d, DoFetch(now, limit)))
  {
    var ops := d.db.ops;
    var batch := Batch(ops, 0, now, limit);
    forall b | b in batch ensures b < |ops| && Sendable(ops, b, now) {
    }
  }

  ghost predicate AppendsPending(ops: seq<Op>, later: seq<Op>) {
    later == ops || (|later| == |ops| + 1 && later == ops + [later[|ops|]] && later[|ops|].state == Pending)
  }

  lemma EditsAppend(db: Db, edit: Edit)
    ensures var r := ApplyEdit(db, edit); r.Committed? ==> AppendsPending(db.ops, r.db.ops)
  {
  }

  lemma EditKeepsOrder(d: Device, edit: Edit)
    requires Ordered(d)
    ensures Ordered(Next(d, DoEdit(edit))) && EvidenceKept(d.db.ops, Next(d, DoEdit(edit)).db.ops)
  {
    EditsAppend(d.db, edit);
    var ops, later := d.db.ops, Next(d, DoEdit(edit)).db.ops;
    if later != ops { AppendKeepsOrder(d, later[|ops|]); }
  }

  lemma ResolveKeepsOrder(d: Device, step: Step)
    requires Ordered(d) && step.DoResolve?
    ensures Ordered(Next(d, step)) && EvidenceKept(d.db.ops, Next(d, step).db.ops)
  {
    var r := Resolve(d.db, step.id, step.shown, step.resolution, step.signing);
    if r.Committed? {
      ResolveOps(d.db, step.id, step.shown, step.resolution, step.signing);
      ClosedKeepsOrder(d, ConflictSource(d.db.ops, step.shown.key, 0).value, step.shown.key, r.db.ops);
    }
  }

  lemma ClosedKeepsOrder(d: Device, source: OpId, key: Key, later: seq<Op>)
    requires Ordered(d) && source < |d.db.ops| && d.db.ops[source].state == Conflict
    requires later == Closed(d.db.ops, source, key)
      || exists op: Op :: op.state == Pending && later == Closed(d.db.ops + [op], source, key)
    ensures QueueOrdered(later, d.sent) && FlightReady(later, d.inFlight, d.sent) && Explained(later)
      && EvidenceKept(d.db.ops, later)
  {
    if later == Closed(d.db.ops, source, key) {
      ClosedQuiet(d.db.ops, source, key);
      QuietKeepsOrder(d, later);
    } else {
      var op: Op :| op.state == Pending && later == Closed(d.db.ops + [op], source, key);
      AppendKeepsOrder(d, op);
      ClosedQuiet(d.db.ops + [op], source, key);
      QuietKeepsOrder(d.(db := d.db.(ops := d.db.ops + [op])), later);
    }
  }

  lemma PullKeepsOrder(d: Device, step: Step)
    requires Ordered(d) && step.DoPullPage?
    ensures Ordered(Next(d, step)) && EvidenceKept(d.db.ops, Next(d, step).db.ops)
  {
    if d.pull.Some? {
      var page := PullPage(d.log, d.pull.value, step.limit);
      ApplyChangesQuiet(d.db, Changes(d.log[page.start..page.end]), step.now);
      QuietKeepsOrder(d, Next(d, step).db.ops);
    }
  }

  lemma QuarantineKeepsOrder(d: Device, step: Step)
    requires Ordered(d) && (step.DoQuarantine? || step.DoRelease?)
    ensures Ordered(Next(d, step)) && EvidenceKept(d.db.ops, Next(d, step).db.ops)
  {
    QuietKeepsOrder(d, Next(d, step).db.ops);
  }

  lemma DiscardKeepsOrder(d: Device, step: Step)
    requires Ordered(d) && step.DoDiscard?
    ensures Ordered(Next(d, step)) && EvidenceKept(d.db.ops, Next(d, step).db.ops)
  {
    DiscardQuiet(d.db, step.op, step.now);
    if Discard(d.db, step.op, step.now).Committed? { QuietKeepsOrder(d, Next(d, step).db.ops); }
  }

  lemma StepKeepsOrder(d: Device, step: Step)
    requires Ordered(d)
    ensures Ordered(Next(d, step)) && EvidenceKept(d.db.ops, Next(d, step).db.ops)
  {
    if step.DoEdit? { EditKeepsOrder(d, step.edit); }
    else if step.DoFetch? { FetchKeepsOrder(d, step.now, step.limit); }
    else if step.DoMark? {
      if step.op in d.inFlight { MarkKeepsOrder(d, step.op, Interpret(d.db, step.op, step.answer), step.now); }
    }
    else if step.DoDiscard? { DiscardKeepsOrder(d, step); }
    else if step.DoResolve? { ResolveKeepsOrder(d, step); }
    else if step.DoPullPage? { PullKeepsOrder(d, step); }
    else if step.DoQuarantine? || step.DoRelease? { QuarantineKeepsOrder(d, step); }
  }

  /** Every reachable outbox is in order. */
  lemma {:induction false} RunsAreOrdered(steps: seq<Step>)
    ensures Ordered(Run(NEW_DEVICE, steps))
    decreases |steps|
  {
    if steps != [] {
      RunsAreOrdered(steps[..|steps| - 1]);
      StepKeepsOrder(Run(NEW_DEVICE, steps[..|steps| - 1]), steps[|steps| - 1]);
    }
  }

  /** From any reachable device, no further run deletes an operation or alters its JSON or signature. */
  lemma {:induction false} RunsKeepEvidence(steps: seq<Step>, more: seq<Step>)
    ensures EvidenceKept(Run(NEW_DEVICE, steps).db.ops, Run(NEW_DEVICE, steps + more).db.ops)
    decreases |more|
  {
    if more == [] {
      assert steps + more == steps;
    } else {
      var cut := |more| - 1;
      assert (steps + more)[..|steps + more| - 1] == steps + more[..cut];
      RunsKeepEvidence(steps, more[..cut]);
      RunsAreOrdered(steps + more[..cut]);
      StepKeepsOrder(Run(NEW_DEVICE, steps + more[..cut]), more[cut]);
    }
  }

  /** In every reachable device a fetched batch holds one operation per key, so recording the
      answer to one of them leaves the row of every other one as it was. */
  lemma BatchItemsAreIndependent(steps: seq<Step>, i: OpId, k: OpId, result: MarkResult, now: Time)
    requires var d := Run(NEW_DEVICE, steps); i in d.inFlight && k in d.inFlight && i != k
    ensures var d := Run(NEW_DEVICE, steps);
      i < |d.db.ops| && k < |d.db.ops| && d.db.ops[i].key != d.db.ops[k].key
        && Mark(d.db, i, result, now).ops[k] == d.db.ops[k]
  {
    RunsAreOrdered(steps);
  }

  /** What a fetch returns in a reachable device: at most one operation per key, each of them the
      first blocking row of its key. */
  lemma BatchHasOnePerKey(steps: seq<Step>, now: Time, limit: nat, x: nat, y: nat)
    requires var batch := Batch(Run(NEW_DEVICE, steps).db.ops, 0, now, limit); x < y < |batch|
    ensures var ops := Run(NEW_DEVICE, steps).db.ops; var batch := Batch(ops, 0, now, limit);
      batch[x] < |ops| && batch[y] < |ops| && ops[batch[x]].key != ops[batch[y]].key
  {
    var ops := Run(NEW_DEVICE, steps).db.ops;
    var batch := Batch(ops, 0, now, limit);
    assert Sendable(ops, batch[x], now) && Sendable(ops, batch[y], now);
    assert Blocks(ops[batch[x]]);
  }

  /** An aborted push changes nothing stored, and the next fetch takes the sendable operations again,
      those without an answer among them. */
  lemma AbortedIsSentAgain(d: Device, now: Time, limit: nat, i: OpId)
    requires i < |d.db.ops| && Sendable(d.db.ops, i, now) && limit > i
    ensures var next := Next(Next(d, DoAbortPush), DoFetch(now, limit));
      next.db == d.db && i in next.inFlight
  {
    var batch := Batch(d.db.ops, 0, now, limit);
    if i !in batch {
      assert |batch| == limit && forall x :: 0 <= x < |batch| ==> batch[x] in batch;
      BatchBelow(batch, i);
    }
  }

  lemma {:induction false} BatchBelow(batch: seq<OpId>, bound: nat)
    requires forall x, y :: 0 <= x < y < |batch| ==> batch[x] < batch[y]
    requires forall x :: 0 <= x < |batch| ==> batch[x] < bound
    ensures |batch| <= bound
    decreases |batch|
  {
    if batch != [] {
      BatchBelow(batch[..|batch| - 1], batch[|batch| - 1]);
    }
  }

  /** An operation without an answer is sent again from thirty seconds on, and not before, as long as it
      is not quarantined. */
  lemma RetriedAfterDelay(d: Device, i: OpId, now: Time, later: Time)
    requires Ordered(d) && i in d.inFlight
    ensures var next := Next(d, DoMark(i, NoAnswer, now)).db;
      Sendable(next.ops, i, later) <==> later >= now + 30_000 && d.db.ops[i].quarantine.None?
  {
    var next := Next(d, DoMark(i, NoAnswer, now)).db;
    assert forall h :: 0 <= h < i && next.ops[h].key == next.ops[i].key ==> !Blocks(next.ops[h]);
  }
}
