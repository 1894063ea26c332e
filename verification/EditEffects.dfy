/** What each local edit writes, column by column. */
module EditEffects {
  import opened LocalTables
  import opened Repository

  // ----- what a sale costs -----

  /** Quantity times unit price, summed over the lines. */
  lemma {:induction false} TotalAdds(first: seq<Line>, second: seq<Line>)
    ensures LinesTotal(first + second) == LinesTotal(first) + LinesTotal(second)
    decreases |first|
  {
    if first == [] {
      assert first + second == second;
    } else {
      assert (first + second)[1..] == first[1..] + second;
      TotalAdds(first[1..], second);
    }
  }

  lemma TotalOfLine(line: Line)
    ensures LinesTotal([line]) == line.quantity * line.unitPrice
  {
    assert [line][1..] == [];
  }

  /** Exactly the lines with a positive quantity are sold, in their order. */
  lemma {:induction false} SelectedAdds(first: seq<Line>, second: seq<Line>)
    ensures Selected(first + second) == Selected(first) + Selected(second)
    decreases |first|
  {
    if first == [] {
      assert first + second == second;
    } else {
      assert (first + second)[1..] == first[1..] + second;
      SelectedAdds(first[1..], second);
    }
  }

  lemma SelectedLine(line: Line)
    ensures Selected([line]) == if line.quantity > 0 then [line] else []
  {
    assert [line][1..] == [];
  }

  /** The items are the lines, numbered as the operation's own. */
  ghost predicate OwnItems(items: set<Item>, op: OpId, lines: seq<Line>) {
    |items| == |lines| && forall i :: 0 <= i < |lines| ==> Item(LocalItem(op, i), lines[i]) in items
  }

  lemma {:induction false} ItemsCounted(op: OpId, lines: seq<Line>, n: nat)
    requires n <= |lines|
    ensures |LocalItems(op, lines[..n])| == n
    decreases n
  {
    if n == 0 {
      assert LocalItems(op, lines[..0]) == {};
    } else {
      ItemsCounted(op, lines, n - 1);
      var before, last := LocalItems(op, lines[..n - 1]), Item(LocalItem(op, n - 1), lines[n - 1]);
      forall item | item in LocalItems(op, lines[..n]) ensures item in before + {last} {
        var i: nat :| i < n && item == Item(LocalItem(op, i), lines[..n][i]);
        if i < n - 1 { assert lines[..n - 1][i] == lines[..n][i]; }
      }
      forall item | item in before + {last} ensures item in LocalItems(op, lines[..n]) {
        if item in before {
          var i: nat :| i < n - 1 && item == Item(LocalItem(op, i), lines[..n - 1][i]);
          assert lines[..n][i] == lines[..n - 1][i];
        } else {
          assert lines[..n][n - 1] == lines[n - 1];
        }
      }
      assert LocalItems(op, lines[..n]) == before + {last};
    }
  }

  lemma ItemsAreLines(op: OpId, lines: seq<Line>)
    ensures OwnItems(LocalItems(op, lines), op, lines)
  {
    ItemsCounted(op, lines, |lines|);
    assert lines[..|lines|] == lines;
  }

  // ----- the edits -----

  predicate FirstQuarantined(ops: seq<Op>, i: int, key: Key) {
    && 0 <= i < |ops| && ops[i].key == key && ops[i].quarantine.Some?
    && forall h :: 0 <= h < i && ops[h].key == key ==> ops[h].quarantine.None?
  }

  /** A new operation is quarantined for the reason of the block, or else for that of the first
      quarantined operation of its transaction. */
  predicate Inherits(db: Db, op: Op) {
    if db.blocked.Some? then op.quarantine == Some(db.blocked.value.reason)
    else
      && (op.quarantine.Some? <==> QuarantinedKey(db.ops, op.key))
      && forall i :: 0 <= i < |db.ops| && FirstQuarantined(db.ops, i, op.key) ==> op.quarantine == db.ops[i].quarantine
  }

  lemma {:induction false} ReasonOfFirst(ops: seq<Op>, i: nat, key: Key)
    requires FirstQuarantined(ops, i, key)
    ensures KeyQuarantine(ops, key) == ops[i].quarantine
    decreases i
  {
    if i > 0 {
      assert forall h :: 0 <= h < |ops| - 1 ==> ops[1..][h] == ops[h + 1];
      ReasonOfFirst(ops[1..], i - 1, key);
    }
  }

  lemma NewOpInherits(db: Db, signed: Signed, signature: string, key: Key)
    ensures Inherits(db, NewOp(db, signed, signature, key))
  {
    forall i | 0 <= i < |db.ops| && FirstQuarantined(db.ops, i, key)
      ensures KeyQuarantine(db.ops, key) == db.ops[i].quarantine
    {
      ReasonOfFirst(db.ops, i, key);
    }
  }

  /** One pending row was appended, signed for the edit in the session. */
  predicate Appended(db: Db, next: Db, key: Key, action: Action, base: Option<int>, signing: Signing) {
    && |next.ops| == |db.ops| + 1 && next.ops[..|db.ops|] == db.ops
    && var op := next.ops[|db.ops|];
    && op.key == key && op.state == Pending && op.attempts == 0 && op.lastError.None? && op.nextAttempt.None?
    && op.signature == signing.signature && op.signed.payload == signing.payload && op.signed.occurredAt == signing.now
    && op.signed.action == action && op.signed.baseRevision == base
    && op.signed.originSession == signing.session.id && op.signed.originActor == signing.session.actor
    && op.signed.terminal == signing.session.terminal && Inherits(db, op)
  }

  lemma AppendedInherits(db: Db, edit: Edit)
    requires ApplyEdit(db, edit).Committed?
    ensures var next := ApplyEdit(db, edit).db; |next.ops| > |db.ops| ==> Inherits(db, next.ops[|db.ops|])
  {
    forall signed, signature, key ensures Inherits(db, NewOp(db, signed, signature, key)) {
      NewOpInherits(db, signed, signature, key);
    }
  }

  /** A create: a paid first revision with the sale, its items, and nothing before it. No Sandbox
      session without the current policy can create, so the amount is always the total. */
  lemma CreateWrites(db: Db, edit: Edit)
    requires edit.EditCreate? && ApplyEdit(db, edit).Committed?
    ensures var next, key, lines := ApplyEdit(db, edit).db, edit.key, Selected(edit.lines);
      && key !in db.txs && key in next.txs
      && var row, session := next.txs[key], edit.signing.session;
      && row.revision == 1 && row.sale.occurredAt == edit.signing.now
      && row.sale.total == row.sale.paymentAmount == LinesTotal(lines)
      && row.sale.payment == edit.payment && row.sale.qrisHash == edit.hash
      && row.originActor == session.actor && row.updatedBy == session.name && row.terminal == session.terminal
      && row.syncState == SyncPending && row.printState == PrintPending
      && row.paymentStatus == PaymentSuccess && row.confirmedRevision == Some(1)
      && row.deletedAt.None? && row.receiptIdentity == edit.receipt
      && (key, 1) in next.revs && next.revs[(key, 1)].before.None? && next.revs[(key, 1)].after.row == row
      && OwnItems(next.revs[(key, 1)].after.items, |db.ops|, lines)
      && ItemsAt(next.items, key, 1) == ItemsAt(db.items, key, 1) + next.revs[(key, 1)].after.items
      && Appended(db, next, key, Create, None, edit.signing)
      && next == db.(txs := next.txs, items := next.items, revs := next.revs, ops := next.ops)
  {
    ItemsAreLines(|db.ops|, Selected(edit.lines));
    AppendedInherits(db, edit);
  }

  /** A correction: the next revision, paid at once, with the new sale; a receipt printed before is due
      again; the snapshot before it is kept. */
  lemma CorrectionWrites(db: Db, edit: Edit)
    requires edit.EditCorrect? && ApplyEdit(db, edit).Committed?
    ensures var next, key, lines := ApplyEdit(db, edit).db, edit.key, Selected(edit.lines);
      && key in db.txs && key in next.txs
      && var was, row, session := db.txs[key], next.txs[key], edit.signing.session;
      && row.revision == was.revision + 1 && row.sale.occurredAt == was.sale.occurredAt
      && row.sale.total == row.sale.paymentAmount == LinesTotal(lines)
      && row.sale.payment == edit.payment && row.sale.qrisHash == edit.hash
      && row.originActor == was.originActor && row.updatedBy == session.name && row.terminal == session.terminal
      && row.syncState == SyncPending
      && row.printState == (if was.printState == PrintSuccess then NeedsReprint else was.printState)
      && row.paymentStatus == PaymentSuccess && row.confirmedRevision == Some(row.revision)
      && row.deletedAt == was.deletedAt && row.receiptIdentity == was.receiptIdentity
      && (key, row.revision) in next.revs
      && var revision := next.revs[(key, row.revision)];
      && revision.before == Some(Hydrate(db, key)) && revision.after.row == row
      && OwnItems(revision.after.items, |db.ops|, lines)
      && ItemsAt(next.items, key, row.revision) == ItemsAt(db.items, key, row.revision) + revision.after.items
      && Appended(db, next, key, Correct, Some(was.revision), edit.signing)
      && next == db.(txs := next.txs, items := next.items, revs := next.revs, ops := next.ops)
  {
    ItemsAreLines(|db.ops|, Selected(edit.lines));
    AppendedInherits(db, edit);
  }

  /** A payment decision: nothing at all if it was already so; otherwise the status as decided, which
      confirms the current revision exactly if it is a success, and an audit of both states. */
  lemma DecisionWrites(db: Db, edit: Edit)
    requires edit.EditPayment? && ApplyEdit(db, edit).Committed?
    ensures var next, key := ApplyEdit(db, edit).db, edit.key;
      && key in db.txs && edit.status != PaymentPending
      && var was, session := db.txs[key], edit.signing.session;
      if was.paymentStatus == edit.status
        && (edit.status == PaymentSuccess ==> was.confirmedRevision == Some(was.revision))
      then next == db
      else
        && key in next.txs && next.txs[key].paymentStatus == edit.status
        && next.txs[key].confirmedRevision == (if edit.status == PaymentSuccess then Some(was.revision) else None)
        && next.txs[key].updatedBy == session.name && next.txs[key].terminal == session.terminal
        && next.txs[key].syncState == SyncPending
        && next.txs == db.txs[key := was.(updatedBy := session.name, terminal := session.terminal,
          syncState := SyncPending, paymentStatus := edit.status, confirmedRevision := next.txs[key].confirmedRevision)]
        && next.audits == db.audits + [PaymentChanged(key, edit.signing.now, Hydrate(db, key), Hydrate(next, key))]
        && Appended(db, next, key, SetPayment, Some(was.revision), edit.signing)
        && next == db.(txs := next.txs, audits := next.audits, ops := next.ops)
  {
    AppendedInherits(db, edit);
  }

  /** A print result: stored with the attempt, and shown on the transaction exactly if the attempt was
      of its current revision. */
  lemma PrintResultWrites(db: Db, edit: Edit)
    requires edit.EditCompletePrint? && ApplyEdit(db, edit).Committed?
    ensures var next, key, n := ApplyEdit(db, edit).db, edit.key, edit.attempt;
      && n < |db.prints| && db.prints[n].key == key && |next.prints| == |db.prints|
      && next.prints[n] == Attempt(key, db.prints[n].revision, AttemptDone(edit.result))
      && (forall i :: 0 <= i < |db.prints| && i != n ==> next.prints[i] == db.prints[i])
      && next.txs.Keys == db.txs.Keys
      && (forall k :: k in db.txs ==>
            if k == key && db.txs[k].revision == db.prints[n].revision
            then next.txs[k] == db.txs[k].(printState := edit.result) else next.txs[k] == db.txs[k])
      && Appended(db, next, key, PrintAttempt(n), None, edit.signing)
      && next == db.(txs := next.txs, prints := next.prints, ops := next.ops)
  {
    AppendedInherits(db, edit);
  }

  // ----- who may do what -----

  /** No operation of the transaction is quarantined, and none of its edits is in conflict or refused. */
  predicate Unhindered(ops: seq<Op>, key: Key) {
    forall i :: 0 <= i < |ops| && ops[i].key == key ==>
      && ops[i].quarantine.None?
      && (ops[i].OnTransaction() ==>
            ops[i].state != Conflict && !(ops[i].state in {Rejected, Discarded} && ops[i].lastError.Some?))
  }

  predicate Sellable(lines: seq<Line>, payment: PaymentMethod) {
    payment != Legacy && Selected(lines) != [] && forall line :: line in Selected(lines) ==> 1 <= line.quantity <= 999
  }

  predicate OwnsOrLeads(session: Session, row: Txn) { session.superadmin || session.actor == row.originActor }

  /** Exactly which edits are let through. A sale needs lines and a payment method of today; a
      correction and a decision need a live transaction that nothing hinders, and its origin actor or a
      superadmin; a confirmed payment is final; a print needs the confirmed current revision. */
  lemma EditsAllowed(db: Db, edit: Edit)
    ensures ApplyEdit(db, edit).Committed? <==>
      var key := edit.key;
      var live := key in db.txs && db.txs[key].deletedAt.None? && db.txs[key].syncState != SyncConflict
        && Unhindered(db.ops, key);
      var confirmed := key in db.txs && db.txs[key].paymentStatus == PaymentSuccess
        && db.txs[key].confirmedRevision == Some(db.txs[key].revision);
      match edit
      case EditCreate(_, lines, payment, _, _, signing) =>
        && (signing.session.sandbox ==> signing.session.current) && Sellable(lines, payment)
        && key !in db.txs && (key, 1) !in db.revs
      case EditCorrect(_, lines, payment, _, signing) =>
        && live && OwnsOrLeads(signing.session, db.txs[key])
        && (signing.session.sandbox ==> signing.session.current) && Sellable(lines, payment)
        && (key, db.txs[key].revision + 1) !in db.revs
      case EditPayment(_, status, signing) =>
        && live && OwnsOrLeads(signing.session, db.txs[key])
        && status != PaymentPending && (confirmed ==> status == PaymentSuccess)
      case EditBeginPrint(_, revision) => live && confirmed && db.txs[key].revision == revision
      case EditCompletePrint(attempt, _, _, _) =>
        attempt < |db.prints| && db.prints[attempt].key == key && db.prints[attempt].revision >= 1
  {
    assert Unhindered(db.ops, edit.key) <==> !QuarantinedKey(db.ops, edit.key) && !TerminalBlock(db.ops, edit.key);
  }

  // ----- a discarded print -----

  predicate Failed(op: Op) { op.state == Error || (op.state in {Rejected, Discarded} && op.lastError.Some?) }

  /** The sync state that the operations of a transaction ask for: the worst of the open ones. */
  predicate Summarizes(state: SyncState, ops: seq<Op>, key: Key) {
    var conflict := exists i :: 0 <= i < |ops| && ops[i].key == key && ops[i].state == Conflict;
    var failed := exists i :: 0 <= i < |ops| && ops[i].key == key && Failed(ops[i]);
    var waiting := exists i :: 0 <= i < |ops| && ops[i].key == key && ops[i].state == Pending;
    state == if conflict then SyncConflict else if failed then SyncError else if waiting then SyncPending
      else SyncSynced
  }

  lemma RecomputedSummarizes(ops: seq<Op>, key: Key)
    ensures Summarizes(Recomputed(ops, key), ops, key)
  {
    var conflict := exists i :: 0 <= i < |ops| && ops[i].key == key && ops[i].state == Conflict;
    var failed := exists i :: 0 <= i < |ops| && ops[i].key == key && Failed(ops[i]);
    var waiting := exists i :: 0 <= i < |ops| && ops[i].key == key && ops[i].state == Pending;
    assert conflict <==> HasState(ops, key, Conflict);
    assert waiting <==> HasState(ops, key, Pending);
    if failed {
      var i :| 0 <= i < |ops| && ops[i].key == key && Failed(ops[i]);
      assert HasTerminal(ops, key) || HasState(ops, key, Error);
    }
  }

  /** Discarding a refused print result settles that operation alone, and the transaction shows what its
      other operations ask for. */
  lemma DiscardedPrint(db: Db, i: OpId, now: Time)
    requires i < |db.ops| && !db.ops[i].OnTransaction() && db.ops[i].state == Rejected && db.ops[i].quarantine.None?
    requires Discard(db, i, now).Committed? && db.ops[i].key in db.txs
    ensures var key, next := db.ops[i].key, Discard(db, i, now).db;
      && next == db.(ops := next.ops, txs := next.txs)
      && next.ops == db.ops[i := db.ops[i].(state := Discarded, lastError := None, nextAttempt := None)]
      && key in next.txs && Summarizes(next.txs[key].syncState, next.ops, key)
      && next.txs == db.txs[key := db.txs[key].(syncState := next.txs[key].syncState)]
  {
    RecomputedSummarizes(Discard(db, i, now).db.ops, db.ops[i].key);
  }
}
