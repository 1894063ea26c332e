/** The stored history of local revisions, over every run, and what local edits keep. */
module History {
  import opened LocalTables
  import opened Repository
  import opened Device
  import opened Frames

  /** Every stored revision continues the one before it: the snapshot kept with revision r is of
      revision r - 1, a first revision has none, and what it wrote is of its own revision. */
  ghost predicate Linked(revs: Revisions) {
    forall p :: p in revs ==>
      && revs[p].after.row.revision == p.1
      && (match revs[p].before case None => p.1 == 1 case Some(before) => before.row.revision == p.1 - 1)
  }

  ghost predicate Shrinks(db: Db, next: Db) {
    forall p :: p in next.revs ==> p in db.revs && next.revs[p] == db.revs[p]
  }

  lemma EditLinks(db: Db, edit: Edit)
    requires Linked(db.revs) && ApplyEdit(db, edit).Committed?
    ensures Linked(ApplyEdit(db, edit).db.revs)
  {
  }

  lemma MarkShrinks(db: Db, i: OpId, result: MarkResult, now: Time)
    requires i < |db.ops|
    ensures Shrinks(db, Mark(db, i, result, now))
  {
  }

  lemma RecoverEditsShrinks(db: Db, key: Key, rows: seq<OpId>)
    requires rows != [] && forall x :: 0 <= x < |rows| ==> rows[x] < |db.ops|
    ensures RecoverEdits(db, key, rows).Committed? ==> Shrinks(db, RecoverEdits(db, key, rows).db)
  {
    RestoreRowsFrame(db, key, db.ops, rows, |rows|);
  }

  lemma RecoverAuthoritativeShrinks(db: Db, key: Key, rows: seq<OpId>, conflict: OpId)
    requires forall x :: 0 <= x < |rows| ==> rows[x] < |db.ops|
    ensures RecoverAuthoritative(db, key, rows, conflict).Committed?
      ==> Shrinks(db, RecoverAuthoritative(db, key, rows, conflict).db)
  {
  }

  lemma RecoverShrinks(db: Db, key: Key, rows: seq<OpId>, now: Time)
    requires rows != [] && forall x :: 0 <= x < |rows| ==> rows[x] < |db.ops|
    ensures Recover(db, key, rows, now).Committed? ==> Shrinks(db, Recover(db, key, rows, now).db)
  {
    if exists x :: 0 <= x < |rows| && db.ops[rows[x]].signed.action == Create {
    } else {
      var conflict := FirstPaymentConflict(db.ops, rows);
      if conflict.Some? {
        RecoverAuthoritativeShrinks(db, key, rows, conflict.value);
      } else {
        RecoverEditsShrinks(db, key, rows);
      }
    }
  }

  lemma DiscardShrinks(db: Db, i: OpId, now: Time)
    ensures Discard(db, i, now).Committed? ==> Shrinks(db, Discard(db, i, now).db)
  {
    if i < |db.ops| {
      var found := RejectedRows(db.ops, db.ops[i].key, |db.ops|);
      RecoverShrinks(db, db.ops[i].key, if found == [] then [i] else found, now);
    }
  }

  lemma ResolveLinks(db: Db, id: nat, shown: ConflictRow, resolution: Resolution, signing: Signing)
    requires Linked(db.revs) && Resolve(db, id, shown, resolution, signing).Committed?
    ensures Linked(Resolve(db, id, shown, resolution, signing).db.revs)
  {
  }

  lemma TxChangeShrinks(db: Db, key: Key, change: Change)
    requires change.TxUpsert? || change.TxDelete?
    ensures Shrinks(db, ApplyToTx(db, key, change))
  {
  }

  lemma {:induction false} ChangesShrink(db: Db, changes: seq<Change>, now: Time)
    ensures Shrinks(db, ApplyChanges(db, changes, now))
    decreases |changes|
  {
    if changes != [] {
      var mid := ApplyChange(db, changes[0], now);
      ChangeShrinks(db, changes[0], now);
      ChangesShrink(mid, changes[1..], now);
    }
  }

  lemma ChangeShrinks(db: Db, change: Change, now: Time)
    ensures Shrinks(db, ApplyChange(db, change, now))
  {
    if Target(change).Some? && (change.TxUpsert? || change.TxDelete?) {
      TxChangeShrinks(db, Target(change).value, change);
    }
  }

  lemma StepLinks(d: Device, step: Step)
    requires Linked(d.db.revs)
    ensures Linked(Next(d, step).db.revs)
  {
    var db := d.db;
    if step.DoEdit? {
      if ApplyEdit(db, step.edit).Committed? { EditLinks(db, step.edit); }
    } else if step.DoMark? {
      if step.op < |db.ops| { MarkShrinks(db, step.op, Interpret(db, step.op, step.answer), step.now); }
    } else if step.DoDiscard? {
      DiscardShrinks(db, step.op, step.now);
    } else if step.DoResolve? {
      if Resolve(db, step.id, step.shown, step.resolution, step.signing).Committed? {
        ResolveLinks(db, step.id, step.shown, step.resolution, step.signing);
      }
    } else if step.DoPullPage? && d.pull.Some? {
      var page := PullPage(d.log, d.pull.value, step.limit);
      ChangesShrink(db, Changes(d.log[page.start..page.end]), step.now);
    }
  }

  /** In every reachable device the stored revisions of a transaction continue one another: the
      snapshot kept with revision r, the state to go back to, is always of revision r - 1. */
  lemma {:induction false} RunsLinkHistory(steps: seq<Step>)
    ensures Linked(Run(NEW_DEVICE, steps).db.revs)
    decreases |steps|
  {
    if steps != [] {
      RunsLinkHistory(steps[..|steps| - 1]);
      StepLinks(Run(NEW_DEVICE, steps[..|steps| - 1]), steps[|steps| - 1]);
    }
  }

  // ----- local edits -----

  predicate Confirmed(db: Db, key: Key) {
    key in db.txs && db.txs[key].paymentStatus == PaymentSuccess
      && db.txs[key].confirmedRevision == Some(db.txs[key].revision)
  }

  /** A local edit leaves every other transaction alone, never takes a confirmed payment back, and
      moves the revision by one exactly when it is a correction, which keeps the state before it and
      the items of the old revision, and charges the sum of its selected lines. */
  lemma EditsAdvance(db: Db, edit: Edit, other: Key)
    requires ApplyEdit(db, edit).Committed?
    ensures var next, key := ApplyEdit(db, edit).db, edit.key;
      && (other != key ==>
            && (other in next.txs <==> other in db.txs)
            && (other in db.txs ==> Hydrate(next, other) == Hydrate(db, other)))
      && (Confirmed(db, key) ==> Confirmed(next, key))
      && (key in db.txs
         ==> key in next.txs && next.txs[key].revision == db.txs[key].revision + if edit.EditCorrect? then 1 else 0)
      && (edit.EditCorrect? ==>
            && key in db.txs && Confirmed(next, key)
            && next.txs[key].sale.total == LinesTotal(Selected(edit.lines))
            && ItemsAt(next.items, key, db.txs[key].revision) == Hydrate(db, key).items
            && (key, next.txs[key].revision) in next.revs
               && next.revs[(key, next.txs[key].revision)].before == Some(Hydrate(db, key)))
  {
  }
}
