/** What one pulled change of a transaction writes, and what it clears away. */
module PullEffects {
  import opened LocalTables
  import opened Repository
  import opened EditEffects

  /** A correction of the key was refused, and wrote the revision or one below it. */
  predicate Refutes(op: Op, key: Key, revision: int) {
    && op.key == key && op.state in {Rejected, Discarded} && op.lastError.Some?
    && op.signed.action == Correct && op.signed.baseRevision.Some? && revision > op.signed.baseRevision.value
  }

  predicate Refuted(ops: seq<Op>, key: Key, revision: int) {
    exists i :: 0 <= i < |ops| && Refutes(ops[i], key, revision)
  }

  lemma {:induction false} FirstIsLowest(ops: seq<Op>, key: Key, n: nat, revision: int)
    requires n <= |ops|
    ensures var first := FirstTerminalCorrection(ops, key, n);
      (first.Some? && revision >= first.value) <==> exists i :: 0 <= i < n && Refutes(ops[i], key, revision)
    decreases n
  {
    if n > 0 { FirstIsLowest(ops, key, n - 1, revision); }
  }

  /** Of the outbox a change settles the refused and discarded operations of its transaction. */
  lemma PullSettles(db: Db, change: Change, now: Time, i: OpId)
    requires (change.TxUpsert? || change.TxDelete?) && !QuarantinedKey(db.ops, change.key) && i < |db.ops|
    ensures var next, op := ApplyChange(db, change, now).ops, db.ops[i];
      && |next| == |db.ops|
      && next[i] == if op.key == change.key && op.state in {Rejected, Discarded}
        then op.(state := Resolved, lastError := None, nextAttempt := None) else op
  {
  }

  /** The row: an upsert is taken over as it is, a delete only sets the time of deletion, and keeps an
      earlier one. */
  lemma PullWrites(db: Db, change: Change, now: Time)
    requires (change.TxUpsert? || change.TxDelete?) && !QuarantinedKey(db.ops, change.key)
    ensures var next, key := ApplyChange(db, change, now), change.key;
      && (key in next.txs <==> change.TxUpsert? || key in db.txs)
      && (key in next.txs ==> Summarizes(next.txs[key].syncState, next.ops, key))
      && (change.TxUpsert? ==>
            Hydrate(next, key) == WithSync(change.snapshot, next.txs[key].syncState))
      && (change.TxDelete? && key in db.txs ==>
            next.txs[key] == db.txs[key].(syncState := next.txs[key].syncState, deletedAt :=
              if db.txs[key].deletedAt.Some? then db.txs[key].deletedAt else Some(change.at)))
  {
    RecomputedSummarizes(ApplyChange(db, change, now).ops, change.key);
    RowWritten(db, change);
  }

  lemma RowWritten(db: Db, change: Change)
    requires change.TxUpsert? || change.TxDelete?
    ensures var next, key := ApplyToTx(db, change.key, change), change.key;
      && (key in next.txs <==> change.TxUpsert? || key in db.txs)
      && (key in next.txs ==> next.txs[key].syncState == Recomputed(next.ops, key))
      && (change.TxUpsert? ==> Hydrate(next, key) == WithSync(change.snapshot, next.txs[key].syncState))
      && (change.TxDelete? && key in db.txs ==>
            next.txs[key] == db.txs[key].(syncState := next.txs[key].syncState, deletedAt :=
              if db.txs[key].deletedAt.Some? then db.txs[key].deletedAt else Some(change.at)))
  {
  }

  lemma DropsRefuted(db: Db, key: Key, revision: int)
    ensures var dropped, at := DropRefused(db, key), (key, revision);
      && (at in dropped.revs <==> at in db.revs && !Refuted(db.ops, key, revision))
      && (at in dropped.revs ==> dropped.revs[at] == db.revs[at])
      && (at in dropped.items <==> at in db.items && !Refuted(db.ops, key, revision))
      && (at in dropped.items ==> dropped.items[at] == db.items[at])
  {
    FirstIsLowest(db.ops, key, |db.ops|, revision);
  }

  /** The history: exactly the revisions that refused corrections wrote, and those above, are gone. */
  lemma PullForgets(db: Db, change: Change, now: Time, revision: int)
    requires (change.TxUpsert? || change.TxDelete?) && !QuarantinedKey(db.ops, change.key)
    ensures var next, at := ApplyChange(db, change, now), (change.key, revision);
      && (at in next.revs <==> at in db.revs && !Refuted(db.ops, change.key, revision))
      && (at in next.revs ==> next.revs[at] == db.revs[at])
      && (!(change.TxUpsert? && change.snapshot.row.revision == revision) ==>
            (at in next.items <==> at in db.items && !Refuted(db.ops, change.key, revision))
            && (at in next.items ==> next.items[at] == db.items[at]))
  {
    DropsRefuted(db, change.key, revision);
    var dropped, next := DropRefused(db, change.key), ApplyChange(db, change, now);
    assert next.revs == dropped.revs;
    assert next.items == if change.TxUpsert?
      then dropped.items[(change.key, change.snapshot.row.revision) := change.snapshot.items] else dropped.items;
  }

  /** A pulled print result is stored as evidence in any case, and shown on its transaction unless that
      is quarantined. */
  lemma PrintPulled(db: Db, change: Change, now: Time)
    requires change.PrintUpsert?
    ensures var next := ApplyChange(db, change, now);
      && next == db.(entities := next.entities, txs := next.txs)
      && next.entities == db.entities[("print_attempt", change.id) := Some(change.payload)]
      && next.txs.Keys == db.txs.Keys
      && forall k :: k in db.txs ==>
           next.txs[k] == if change.of.Some? && k == change.of.value.0 && !QuarantinedKey(db.ops, k)
             then db.txs[k].(printState := change.of.value.1) else db.txs[k]
  {
  }
}
