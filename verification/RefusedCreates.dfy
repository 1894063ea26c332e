/** Refused creates: a transaction counts as paid from the moment it is created, so when the server
    refuses its create no pull-free run ever lets it be discarded. */
module RefusedCreates {
  import opened LocalTables
  import opened Repository
  import opened Device
  import opened Frames
  import opened History
  import opened InOrder
  import opened PaymentConflicts
  import opened Undo

  // ----- one state -----

  /** The transaction is archived, as of now unless it was before, and unpaid; its items and revisions
      are kept, and nothing rejected is left. */
  ghost predicate ArchivedFrom(db: Db, next: Db, key: Key, now: Time) {
    && next.items == db.items && next.revs == db.revs && !HasState(next.ops, key, Rejected)
    && next.txs.Keys == db.txs.Keys
    && forall k :: k in db.txs ==>
         next.txs[k] == if k != key then db.txs[k] else db.txs[k].(
           deletedAt := if db.txs[k].deletedAt.Some? then db.txs[k].deletedAt else Some(now),
           paymentStatus := PaymentPending, confirmedRevision := None, syncState := SyncError)
  }

  lemma CreateIsArchived(db: Db, key: Key, now: Time)
    ensures var r := RecoverCreate(db, key, now);
      && (r.Committed? <==> !Protected(db, key))
      && (r.Committed? ==> ArchivedFrom(db, r.db.(ops := ResolveTerminal(r.db.ops, key)), key, now))
  {
  }

  lemma CreateIsRecovered(db: Db, key: Key, rows: seq<OpId>, create: OpId, now: Time)
    requires rows != [] && create in rows && forall x :: 0 <= x < |rows| ==> rows[x] < |db.ops|
    requires create < |db.ops| && db.ops[create].signed.action == Create
    ensures Recover(db, key, rows, now) == RecoverCreate(db, key, now)
  {
  }

  /** When the create of a transaction is among the refused edits, discarding any of them succeeds
      exactly if no payment and no print proves the transaction, and then archives it. */
  lemma DiscardedCreate(db: Db, key: Key, create: OpId, x: OpId, now: Time)
    requires EditOf(db.ops, create, key) && RejectedEdit(db.ops[create], key) && db.ops[create].signed.action == Create
    requires EditOf(db.ops, x, key) && db.ops[x].state == Rejected
    requires !QuarantinedKey(db.ops, key) && !HasState(db.ops, key, Conflict)
    ensures Discard(db, x, now).Committed? <==> !Protected(db, key)
    ensures Discard(db, x, now).Committed? ==> ArchivedFrom(db, Discard(db, x, now).db, key, now)
  {
    var rows := RejectedRows(db.ops, key, |db.ops|);
    assert create in rows;
    DiscardOfEdit(db, key, rows, x, now);
    CreateIsRecovered(db, key, rows, create, now);
    CreateIsArchived(db, key, now);
  }

  // ----- before the refusal -----

  /** Edit `p` is the unsent create of `key`, its first edit, and the payment is confirmed. */
  ghost predicate Created(db: Db, key: Key, p: OpId) {
    && EditOf(db.ops, p, key) && db.ops[p].signed.action == Create && db.ops[p].Unsent()
    && Confirmed(db, key)
    && forall j :: EditOf(db.ops, j, key) ==> j >= p
  }

  lemma CreateStarts(db: Db, edit: Edit)
    requires CreatesFirst(db) && edit.EditCreate? && ApplyEdit(db, edit).Committed?
    ensures Created(ApplyEdit(db, edit).db, edit.key, |db.ops|)
  {
    var next := ApplyEdit(db, edit).db;
    assert edit.key !in db.txs;
    assert forall j :: 0 <= j < |db.ops| ==> next.ops[j] == db.ops[j];
  }

  /** What a step must keep for the create to stay as it is. */
  lemma CreatedGoesOn(db: Db, next: Db, key: Key, p: OpId)
    requires Created(db, key, p) && EvidenceKept(db.ops, next.ops) && next.ops[p].Unsent() && Confirmed(next, key)
    ensures Created(next, key, p)
  {
    forall j | EditOf(next.ops, j, key) ensures j >= p {
      if j < |db.ops| { assert EditOf(db.ops, j, key); }
    }
  }

  lemma EditKeepsConfirmed(db: Db, edit: Edit, key: Key)
    requires Confirmed(db, key) && ApplyEdit(db, edit).Committed?
    ensures Confirmed(ApplyEdit(db, edit).db, key)
  {
    EditsAdvance(db, edit, key);
    if edit.key != key { SameRowConfirmed(db, ApplyEdit(db, edit).db, key); }
  }

  lemma SameRowConfirmed(db: Db, next: Db, key: Key)
    requires Confirmed(db, key) && key in next.txs && Hydrate(next, key) == Hydrate(db, key)
    ensures Confirmed(next, key)
  {
  }

  /** Recording an answer takes a confirmed payment back only when it refuses an edit that nothing
      proves, or brings a conflict, and only for the transaction of the answered operation. */
  lemma MarkKeepsConfirmed(db: Db, i: OpId, result: MarkResult, now: Time, key: Key)
    requires i < |db.ops| && Confirmed(db, key)
    requires || db.ops[i].key != key || result.MarkSuccess? || result.MarkError?
             || (result.MarkRejected? && (!db.ops[i].OnTransaction() || PreservesEvidence(db, i)))
    ensures Confirmed(Mark(db, i, result, now), key)
  {
  }

  lemma AnswerToPrint(db: Db, i: OpId, answer: Answer)
    requires i < |db.ops| && !db.ops[i].OnTransaction()
    ensures var result := Interpret(db, i, answer); result.MarkSuccess? || result.MarkError? || result.MarkRejected?
  {
  }

  lemma EditsUnsent(d: Device, key: Key, p: OpId)
    requires Ordered(d) && Created(d.db, key, p)
    ensures forall j :: EditOf(d.db.ops, j, key) ==> d.db.ops[j].Unsent()
  {
    forall j | EditOf(d.db.ops, j, key) ensures d.db.ops[j].Unsent() {
      assert j > p ==> d.db.ops[j].state == Pending;
    }
  }

  lemma MarkOfCreated(d: Device, i: OpId, answer: Answer, now: Time, key: Key, p: OpId)
    requires Ordered(d) && Created(d.db, key, p) && i in d.inFlight
    requires Mark(d.db, i, Interpret(d.db, i, answer), now).ops[p].Unsent()
    ensures Created(Mark(d.db, i, Interpret(d.db, i, answer), now), key, p)
  {
    var result := Interpret(d.db, i, answer);
    MarkShape(d.db, i, result, now);
    MarkWritesRows(d.db, i, result, now);
    if d.db.ops[i].key == key && i != p {
      assert i < p && !EditOf(d.db.ops, i, key);
      AnswerToPrint(d.db, i, answer);
    }
    MarkKeepsConfirmed(d.db, i, result, now, key);
    CreatedGoesOn(d.db, Mark(d.db, i, result, now), key, p);
  }

  lemma ShapedDiscardKeepsConfirmed(db: Db, next: Db, i: OpId, key: Key)
    requires DiscardShape(db, next, i) && Confirmed(db, key)
    requires EditOf(db.ops, i, key) ==> next == db
    ensures Confirmed(next, key)
  {
    if next != db && !db.ops[i].OnTransaction() {
      assert next.txs == SetSync(db.txs, db.ops[i].key, Recomputed(next.ops, db.ops[i].key));
    }
  }

  lemma DiscardOfCreated(d: Device, i: OpId, now: Time, key: Key, p: OpId)
    requires Ordered(d) && Created(d.db, key, p) && Discard(d.db, i, now).Committed?
    ensures Created(Discard(d.db, i, now).db, key, p)
  {
    var next := Discard(d.db, i, now).db;
    DiscardFrame(d.db, i, now);
    DiscardQuiet(d.db, i, now);
    EditsUnsent(d, key, p);
    ShapedDiscardKeepsConfirmed(d.db, next, i, key);
    CreatedGoesOn(d.db, next, key, p);
  }

  lemma ResolveKeepsOtherRow(db: Db, id: nat, shown: ConflictRow, resolution: Resolution, signing: Signing, key: Key)
    requires Resolve(db, id, shown, resolution, signing).Committed? && shown.key != key && key in db.txs
    ensures var next := Resolve(db, id, shown, resolution, signing).db;
      key in next.txs && next.txs[key] == db.txs[key]
  {
  }

  lemma ResolveOfCreated(d: Device, step: Step, key: Key, p: OpId)
    requires Ordered(d) && Created(d.db, key, p) && step.DoResolve?
    ensures Created(Next(d, step).db, key, p)
  {
    if Resolve(d.db, step.id, step.shown, step.resolution, step.signing).Committed? {
      var source := ConflictSource(d.db.ops, step.shown.key, 0).value;
      EditsUnsent(d, key, p);
      assert !EditOf(d.db.ops, source, key);
      StepKeepsOrder(d, step);
      ResolveKeepsOtherRow(d.db, step.id, step.shown, step.resolution, step.signing, key);
      ResolveRows(d.db, step.id, step.shown, step.resolution, step.signing, key);
      OtherKeyRows(d.db, Next(d, step).db, source, step.shown.key, key);
      CreatedGoesOn(d.db, Next(d, step).db, key, p);
    }
  }

  lemma StepOfCreated(d: Device, step: Step, key: Key, p: OpId)
    requires Ordered(d) && Created(d.db, key, p) && !step.DoPullPage?
    requires p < |Next(d, step).db.ops| && Next(d, step).db.ops[p].Unsent()
    ensures Created(Next(d, step).db, key, p)
  {
    var db := d.db;
    if step.DoEdit? {
      if ApplyEdit(db, step.edit).Committed? {
        StepKeepsOrder(d, step);
        EditKeepsConfirmed(db, step.edit, key);
        CreatedGoesOn(db, Next(d, step).db, key, p);
      }
    } else if step.DoMark? {
      if step.op in d.inFlight { MarkOfCreated(d, step.op, step.answer, step.now, key, p); }
    } else if step.DoDiscard? {
      if Discard(db, step.op, step.now).Committed? { DiscardOfCreated(d, step.op, step.now, key, p); }
    } else if step.DoResolve? {
      ResolveOfCreated(d, step, key, p);
    } else if step.DoQuarantine? || step.DoRelease? {
      StepKeepsOrder(d, step);
      CreatedGoesOn(db, Next(d, step).db, key, p);
    }
  }

  lemma {:induction false} CreatedThroughRun(d: Device, steps: seq<Step>, key: Key, p: OpId)
    requires Ordered(d) && Created(d.db, key, p) && PullFree(steps)
    requires p < |Run(d, steps).db.ops| && Run(d, steps).db.ops[p].Unsent()
    ensures Created(Run(d, steps).db, key, p)
    decreases |steps|
  {
    if steps != [] {
      var mid, step := Run(d, steps[..|steps| - 1]), steps[|steps| - 1];
      OrderedRun(d, steps[..|steps| - 1]);
      StepKeepsOrder(mid, step);
      CreatedThroughRun(d, steps[..|steps| - 1], key, p);
      StepOfCreated(mid, step, key, p);
    }
  }

  // ----- after the refusal -----

  /** The create is refused, the payment still confirmed, and nothing before the create blocks. */
  ghost predicate RefusedFirst(db: Db, key: Key, p: OpId) {
    && p < |db.ops| && RejectedEdit(db.ops[p], key) && db.ops[p].signed.action == Create
    && Confirmed(db, key) && !HasState(db.ops, key, Conflict)
    && forall j :: 0 <= j < p && db.ops[j].key == key ==> !Blocks(db.ops[j])
  }

  lemma CreateIsRefused(d: Device, key: Key, p: OpId, message: string, now: Time)
    requires Ordered(d) && Created(d.db, key, p) && p in d.inFlight
    ensures RefusedFirst(Mark(d.db, p, MarkRejected(message), now), key, p)
  {
    var db, next := d.db, Mark(d.db, p, MarkRejected(message), now);
    assert PreservesEvidence(db, p);
    MarkKeepsConfirmed(db, p, MarkRejected(message), now, key);
    MarkWritesRows(db, p, MarkRejected(message), now);
    assert forall j :: p < j < |db.ops| && db.ops[j].key == key ==> db.ops[j].state == Pending;
    assert forall j :: 0 <= j < p && db.ops[j].key == key ==> !Blocks(db.ops[j]);
    RefusedRowsOf(db.ops, next.ops, key, p, CASCADE_REJECTED + message);
  }

  lemma RefusedRowsOf(ops: seq<Op>, later: seq<Op>, key: Key, p: OpId, message: string)
    requires p < |ops| && ops[p].key == key && MarkRows(ops, later, p, message) && later[p].state == Rejected
    requires forall j :: p < j < |ops| && ops[j].key == key ==> ops[j].state == Pending
    requires forall j :: 0 <= j < p && ops[j].key == key ==> !Blocks(ops[j])
    ensures !HasState(later, key, Conflict)
    ensures forall j :: 0 <= j < p && later[j].key == key ==> !Blocks(later[j])
  {
  }

  lemma RefusedGoesOnFirst(db: Db, next: Db, key: Key, p: OpId)
    requires RefusedFirst(db, key, p) && Confirmed(next, key) && EvidenceKept(db.ops, next.ops)
    requires forall j :: 0 <= j < |db.ops| && db.ops[j].key == key ==>
               || next.ops[j] == db.ops[j].(quarantine := next.ops[j].quarantine)
               || (j > p && !db.ops[j].OnTransaction() && next.ops[j].state != Conflict)
    requires forall j :: |db.ops| <= j < |next.ops| && next.ops[j].key == key ==> next.ops[j].state == Pending
    ensures RefusedFirst(next, key, p)
  {
    assert forall j :: 0 <= j < |db.ops| && db.ops[j].key == key ==> db.ops[j].state != Conflict;
  }

  /** Whatever edit of the transaction is chosen, discarding it changes nothing. */
  lemma DiscardDoesNothing(d: Device, x: OpId, now: Time, key: Key, p: OpId)
    requires RefusedFirst(d.db, key, p) && EditOf(d.db.ops, x, key)
    ensures Next(d, DoDiscard(x, now)) == d
  {
    if d.db.ops[x].state == Rejected && !QuarantinedKey(d.db.ops, key) { DiscardedCreate(d.db, key, p, x, now); }
  }

  lemma EditOfRefused(db: Db, edit: Edit, key: Key, p: OpId)
    requires RefusedFirst(db, key, p) && ApplyEdit(db, edit).Committed?
    ensures RefusedFirst(ApplyEdit(db, edit).db, key, p)
  {
    EditsAppend(db, edit);
    EditKeepsConfirmed(db, edit, key);
    RefusedGoesOnFirst(db, ApplyEdit(db, edit).db, key, p);
  }

  lemma MarkOfRefused(d: Device, i: OpId, result: MarkResult, now: Time, key: Key, p: OpId)
    requires Ordered(d) && RefusedFirst(d.db, key, p) && i in d.inFlight
    ensures RefusedFirst(Mark(d.db, i, result, now), key, p)
  {
    assert Blocks(d.db.ops[p]);
    assert d.db.ops[i].key != key;
    MarkWritesRows(d.db, i, result, now);
    MarkShape(d.db, i, result, now);
    MarkKeepsConfirmed(d.db, i, result, now, key);
    RefusedGoesOnFirst(d.db, Mark(d.db, i, result, now), key, p);
  }

  lemma DiscardOfRefusedFirst(d: Device, i: OpId, now: Time, key: Key, p: OpId)
    requires RefusedFirst(d.db, key, p) && Discard(d.db, i, now).Committed?
    ensures RefusedFirst(Discard(d.db, i, now).db, key, p)
  {
    var next := Discard(d.db, i, now).db;
    DiscardFrame(d.db, i, now);
    DiscardQuiet(d.db, i, now);
    if EditOf(d.db.ops, i, key) {
      DiscardDoesNothing(d, i, now, key, p);
    } else {
      ShapedDiscardKeepsConfirmed(d.db, next, i, key);
      ShapedDiscardOfRefusedFirst(d.db, next, i, key, p);
    }
  }

  lemma ShapedDiscardOfRefusedFirst(db: Db, next: Db, i: OpId, key: Key, p: OpId)
    requires RefusedFirst(db, key, p) && DiscardShape(db, next, i) && EvidenceKept(db.ops, next.ops)
    requires !EditOf(db.ops, i, key) && Confirmed(next, key)
    ensures RefusedFirst(next, key, p)
  {
    if next != db {
      assert db.ops[i].key == key ==> Blocks(db.ops[i]);
      RefusedGoesOnFirst(db, next, key, p);
    }
  }

  lemma ResolveOfRefused(db: Db, id: nat, shown: ConflictRow, resolution: Resolution, signing: Signing, key: Key,
      p: OpId)
    requires RefusedFirst(db, key, p) && Resolve(db, id, shown, resolution, signing).Committed?
    ensures RefusedFirst(Resolve(db, id, shown, resolution, signing).db, key, p)
  {
    var next := Resolve(db, id, shown, resolution, signing).db;
    var source := ConflictSource(db.ops, shown.key, 0).value;
    assert shown.key != key;
    ResolveKeepsOtherRow(db, id, shown, resolution, signing, key);
    ResolveRows(db, id, shown, resolution, signing, key);
    OtherKeyRows(db, next, source, shown.key, key);
    RefusedGoesOnFirst(db, next, key, p);
  }

  lemma StepOfRefused(d: Device, step: Step, key: Key, p: OpId)
    requires Ordered(d) && RefusedFirst(d.db, key, p) && !step.DoPullPage?
    ensures RefusedFirst(Next(d, step).db, key, p)
  {
    var db := d.db;
    if step.DoEdit? {
      if ApplyEdit(db, step.edit).Committed? { EditOfRefused(db, step.edit, key, p); }
    } else if step.DoMark? {
      if step.op in d.inFlight { MarkOfRefused(d, step.op, Interpret(db, step.op, step.answer), step.now, key, p); }
    } else if step.DoDiscard? {
      if Discard(db, step.op, step.now).Committed? { DiscardOfRefusedFirst(d, step.op, step.now, key, p); }
    } else if step.DoResolve? {
      if Resolve(db, step.id, step.shown, step.resolution, step.signing).Committed? {
        ResolveOfRefused(db, step.id, step.shown, step.resolution, step.signing, key, p);
      }
    } else if step.DoQuarantine? || step.DoRelease? {
      StepKeepsOrder(d, step);
      RefusedGoesOnFirst(db, Next(d, step).db, key, p);
    }
  }

  lemma {:induction false} RefusedFirstThroughRun(d: Device, steps: seq<Step>, key: Key, p: OpId)
    requires Ordered(d) && RefusedFirst(d.db, key, p) && PullFree(steps)
    ensures RefusedFirst(Run(d, steps).db, key, p)
    decreases |steps|
  {
    if steps != [] {
      OrderedRun(d, steps[..|steps| - 1]);
      RefusedFirstThroughRun(d, steps[..|steps| - 1], key, p);
      StepOfRefused(Run(d, steps[..|steps| - 1]), steps[|steps| - 1], key, p);
    }
  }

  // ----- the theorem -----

  /** `create` is a create in a reachable device; `during` runs before the server refuses it, `after`
      runs after that. Whatever the refusal says, no edit of the transaction can be discarded any more:
      the create stays refused and the payment confirmed. */
  lemma RefusedCreateStays(before: seq<Step>, create: Edit, during: seq<Step>, answer: Answer, message: string,
      at: Time, after: seq<Step>, x: OpId, now: Time)
    requires var start := Run(NEW_DEVICE, before);
      && create.EditCreate? && ApplyEdit(start.db, create).Committed? && PullFree(during) && PullFree(after)
      && var p := |start.db.ops|;
      && var sent := Run(Next(start, DoEdit(create)), during);
      && p in sent.inFlight && p < |sent.db.ops| && Interpret(sent.db, p, answer) == MarkRejected(message)
      && EditOf(Run(Next(sent, DoMark(p, answer, at)), after).db.ops, x, create.key)
    ensures var start := Run(NEW_DEVICE, before);
      var p := |start.db.ops|;
      var last := Run(Next(Run(Next(start, DoEdit(create)), during), DoMark(p, answer, at)), after);
      && Next(last, DoDiscard(x, now)) == last
      && p < |last.db.ops| && RejectedEdit(last.db.ops[p], create.key) && Confirmed(last.db, create.key)
  {
    var start := Run(NEW_DEVICE, before);
    var key, p := create.key, |start.db.ops|;
    RunsAreOrdered(before);
    RunsCreateFirst(before);
    CreateStarts(start.db, create);
    var created := Next(start, DoEdit(create));
    StepKeepsOrder(start, DoEdit(create));
    var sent := Run(created, during);
    var refused := Next(sent, DoMark(p, answer, at));
    CreateIsRefusedInRun(created, during, sent, refused, key, p, answer, message, at);
    RefusedFirstThroughRun(refused, after, key, p);
    DiscardDoesNothing(Run(refused, after), x, now, key, p);
  }

  lemma CreateIsRefusedInRun(created: Device, during: seq<Step>, sent: Device, refused: Device, key: Key, p: OpId,
                             answer: Answer, message: string, at: Time)
    requires Ordered(created) && Created(created.db, key, p) && PullFree(during)
    requires sent == Run(created, during) && refused == Next(sent, DoMark(p, answer, at))
    requires p in sent.inFlight && p < |sent.db.ops| && Interpret(sent.db, p, answer) == MarkRejected(message)
    ensures Ordered(refused) && RefusedFirst(refused.db, key, p)
  {
    OrderedRun(created, during);
    assert sent.db.ops[p].Unsent();
    CreatedThroughRun(created, during, key, p);
    CreateIsRefused(sent, key, p, message, at);
    StepKeepsOrder(sent, DoMark(p, answer, at));
  }
}
