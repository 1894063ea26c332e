/** What discarding leaves alone: recovery touches one transaction's row, items and revisions. */
module Frames {
  import opened LocalTables
  import opened Repository

  /** `next` differs from `db` at most in the row, the items and the revisions of `key`. */
  ghost predicate OnlyKey(db: Db, next: Db, key: Key) {
    && next == db.(txs := next.txs, items := next.items, revs := next.revs)
    && db.txs.Keys <= next.txs.Keys
    && (forall k :: k in next.txs && k != key ==> k in db.txs && next.txs[k] == db.txs[k])
    && (forall p :: p in next.items && p.0 != key ==> p in db.items && next.items[p] == db.items[p])
    && (forall p :: p in db.items && p.0 != key ==> p in next.items)
    && (forall p :: p in next.revs ==> p in db.revs && next.revs[p] == db.revs[p])
    && (forall p :: p in db.revs && p.0 != key ==> p in next.revs)
  }

  lemma {:induction false} RestoreRowsFrame(db: Db, key: Key, ops: seq<Op>, rows: seq<OpId>, n: nat)
    requires 0 < n <= |rows|
    requires forall x :: 0 <= x < |rows| ==> rows[x] < |ops|
    ensures var r := RestoreRows(db, key, ops, rows, n);
      r.Restored? ==>
        && OnlyKey(db, r.db, key) && r.db.revs == db.revs
        && key in r.db.txs && r.db.txs[key].syncState == SyncSynced
    decreases n
  {
    var before := StoredBefore(db, key, ops[rows[n - 1]]);
    if before.Some? && n > 1 {
      RestoreRowsFrame(Replace(db, key, WithSync(before.value, SyncSynced)), key, ops, rows, n - 1);
    }
  }

  lemma DropFrame(db: Db, next: Db, key: Key, bound: int)
    requires OnlyKey(db, next, key)
    ensures OnlyKey(db, DropFrom(next, key, bound), key)
  {
  }

  lemma ReplaceFrame(db: Db, next: Db, key: Key, snapshot: Snapshot)
    requires OnlyKey(db, next, key)
    ensures OnlyKey(db, Replace(next, key, snapshot), key)
  {
  }

  ghost predicate Recovered(db: Db, r: Outcome, key: Key) {
    r.Committed? ==>
      && OnlyKey(db, r.db, key)
      && (key in db.txs ==> key in r.db.txs && r.db.txs[key].syncState != SyncConflict)
  }

  lemma RecoverCreateFrame(db: Db, key: Key, now: Time)
    ensures Recovered(db, RecoverCreate(db, key, now), key)
  {
  }

  lemma ReplaceAndCutFrame(db: Db, dropped: Db, key: Key, snapshot: Snapshot, bound: int)
    requires OnlyKey(db, dropped, key)
    ensures var next := DropFrom(Replace(dropped, key, snapshot), key, bound);
      OnlyKey(db, next, key) && key in next.txs && next.txs[key] == snapshot.row
  {
    ReplaceFrame(db, dropped, key, snapshot);
    DropFrame(db, Replace(dropped, key, snapshot), key, bound);
  }

  lemma DropCorrectionsFrame(db: Db, key: Key, rows: seq<OpId>)
    requires forall x :: 0 <= x < |rows| ==> rows[x] < |db.ops|
    ensures OnlyKey(db, DropCorrections(db, key, rows), key)
  {
    var first := FirstCorrection(db.ops, rows);
    if first.Some? { DropFrame(db, db, key, first.value); }
  }

  lemma RecoverAuthoritativeFrame(db: Db, key: Key, rows: seq<OpId>, conflict: OpId)
    requires forall x :: 0 <= x < |rows| ==> rows[x] < |db.ops|
    ensures Recovered(db, RecoverAuthoritative(db, key, rows, conflict), key)
  {
    var authoritative := LastConflictAudit(db.audits, key, conflict);
    if authoritative.Some? {
      var snapshot := WithSync(authoritative.value, SyncSynced);
      DropCorrectionsFrame(db, key, rows);
      ReplaceAndCutFrame(db, DropCorrections(db, key, rows), key, snapshot, authoritative.value.row.revision + 1);
    }
  }

  lemma RecoverEditsFrame(db: Db, key: Key, rows: seq<OpId>)
    requires rows != []
    requires forall x :: 0 <= x < |rows| ==> rows[x] < |db.ops|
    ensures Recovered(db, RecoverEdits(db, key, rows), key)
  {
    RestoreRowsFrame(db, key, db.ops, rows, |rows|);
    match RestoreRows(db, key, db.ops, rows, |rows|)
    case NoSnapshot =>
    case Restored(restored, revision) => DropFrame(db, restored, key, revision + 1);
  }

  lemma RecoverFrame(db: Db, key: Key, rows: seq<OpId>, now: Time)
    requires rows != []
    requires forall x :: 0 <= x < |rows| ==> rows[x] < |db.ops|
    ensures Recovered(db, Recover(db, key, rows, now), key)
  {
    var conflict := FirstPaymentConflict(db.ops, rows);
    RecoverCreateFrame(db, key, now);
    if conflict.Some? {
      RecoverAuthoritativeFrame(db, key, rows, conflict.value);
    } else {
      RecoverEditsFrame(db, key, rows);
    }
  }

  /** A committed discard: nothing; or one print operation settled; or the key recovered and its
      rejected operations resolved. */
  ghost predicate DiscardShape(db: Db, next: Db, i: OpId) {
    || next == db
    || (&& i < |db.ops| && db.ops[i].state == Rejected
        && var key := db.ops[i].key;
        && !HasState(db.ops, key, Conflict) && !QuarantinedKey(db.ops, key)
        && if db.ops[i].OnTransaction() then
             && next.ops == ResolveTerminal(db.ops, key)
             && OnlyKey(db, next.(ops := db.ops), key)
             && (key in db.txs ==> key in next.txs && next.txs[key].syncState != SyncConflict)
           else
             && next.ops == db.ops[i := Settle(db.ops[i], Discarded)]
             && next == db.(ops := next.ops, txs := SetSync(db.txs, key, Recomputed(next.ops, key))))
  }

  lemma DiscardFrame(db: Db, i: OpId, now: Time)
    ensures var r := Discard(db, i, now); r.Committed? ==> DiscardShape(db, r.db, i)
  {
    if i < |db.ops| && db.ops[i].OnTransaction() {
      var key := db.ops[i].key;
      var found := RejectedRows(db.ops, key, |db.ops|);
      RecoverFrame(db, key, if found == [] then [i] else found, now);
    }
  }

  // ----- pulling -----

  lemma WriteFrame(db: Db, key: Key, change: Change)
    requires change.TxUpsert? || change.TxDelete?
    ensures OnlyKey(db, WriteServerTx(DropRefused(db, key), key, change), key)
  {
    var first := FirstTerminalCorrection(db.ops, key, |db.ops|);
    if first.Some? { DropFrame(db, db, key, first.value); }
    if change.TxUpsert? { ReplaceFrame(db, DropRefused(db, key), key, WithSync(change.snapshot, SyncSynced)); }
  }

  ghost predicate ConflictsFollow(before: seq<ConflictRow>, after: seq<ConflictRow>, key: Key) {
    && |after| == |before|
    && (forall c :: 0 <= c < |before| ==> after[c].key == before[c].key && after[c].resolution == before[c].resolution)
    && (forall c :: 0 <= c < |before| && before[c].key != key ==> after[c] == before[c])
  }

  lemma FollowFrame(conflicts: seq<ConflictRow>, key: Key, change: Change)
    requires change.TxUpsert? || change.TxDelete?
    ensures ConflictsFollow(conflicts, FollowServer(conflicts, key, change), key)
  {
  }

  /** Everything a transaction change leaves alone, and what it does to the outbox. */
  ghost predicate PulledInto(db: Db, next: Db, key: Key) {
    && OnlyKey(db, next.(ops := db.ops, conflicts := db.conflicts), key)
    && next.ops == ResolveTerminal(db.ops, key)
    && ConflictsFollow(db.conflicts, next.conflicts, key)
    && (key in next.txs ==> next.txs[key].syncState == Recomputed(next.ops, key))
  }

  lemma ApplyToTxFrame(db: Db, key: Key, change: Change)
    requires change.TxUpsert? || change.TxDelete?
    ensures PulledInto(db, ApplyToTx(db, key, change), key)
  {
    WriteFrame(db, key, change);
    FollowFrame(db.conflicts, key, change);
    Assembled(db, WriteServerTx(DropRefused(db, key), key, change), FollowServer(db.conflicts, key, change), key);
  }

  lemma Assembled(db: Db, written: Db, conflicts: seq<ConflictRow>, key: Key)
    requires OnlyKey(db, written, key) && ConflictsFollow(db.conflicts, conflicts, key)
    ensures var ops := ResolveTerminal(db.ops, key);
      PulledInto(db,
        written.(conflicts := conflicts, ops := ops, txs := SetSync(written.txs, key, Recomputed(ops, key))), key)
  {
  }
}
