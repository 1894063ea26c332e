/** The local database as the program holds it: one object whose tables its methods update
    statement by statement. Every method is proved against the function of `Repository`. */
module LocalStore {
  import opened LocalTables
  import opened Repository
  import Quarantine

  lemma LocalItemsGrow(op: OpId, lines: seq<Line>, n: nat)
    requires n < |lines|
    ensures LocalItems(op, lines[..n + 1]) == LocalItems(op, lines[..n]) + {Item(LocalItem(op, n), lines[n])}
  {
    forall item | item in LocalItems(op, lines[..n]) + {Item(LocalItem(op, n), lines[n])}
      ensures item in LocalItems(op, lines[..n + 1])
    {
      if item in LocalItems(op, lines[..n]) {
        var i: nat :| i < n && item == Item(LocalItem(op, i), lines[..n][i]);
        assert lines[..n + 1][i] == lines[..n][i];
      } else {
        assert lines[..n + 1][n] == lines[n];
      }
    }
    forall item | item in LocalItems(op, lines[..n + 1])
      ensures item in LocalItems(op, lines[..n]) + {Item(LocalItem(op, n), lines[n])}
    {
      var i: nat :| i < n + 1 && item == Item(LocalItem(op, i), lines[..n + 1][i]);
      if i < n { assert lines[..n][i] == lines[..n + 1][i]; }
    }
  }

  class LocalStore {
    var outbox: seq<Op>
    var transactions: map<Key, Txn>
    var items: Items
    var revisions: Revisions
    var conflicts: seq<ConflictRow>
    var audits: seq<Audit>
    var prints: seq<Attempt>
    var packages: map<string, Package>
    var entities: map<(string, string), Option<string>>
    var cursor: Option<nat>
    var blocked: Option<Block>

    function Tables(): Db
      reads this
    {
      Db(outbox, transactions, items, revisions, conflicts, audits, prints, packages, entities, cursor, blocked)
    }

    constructor ()
      ensures Tables() == EMPTY_DB
    {
      outbox, transactions, items, revisions := [], map[], map[], map[];
      conflicts, audits, prints, packages, entities := [], [], [], map[], map[];
      cursor, blocked := None, None;
    }

    /** A step's whole effect: its committed tables, or none when it throws. */
    twostate predicate Did(outcome: Outcome, ok: bool)
      reads this
    {
      && ok == outcome.Committed?
      && Tables() == if ok then outcome.db else old(Tables())
    }

    /** ROLLBACK to the tables at BEGIN. */
    method Rollback(begin: Db)
      modifies this
      ensures Tables() == begin
    {
      outbox, transactions, items, revisions := begin.ops, begin.txs, begin.items, begin.revs;
      conflicts, audits, prints, packages, entities := begin.conflicts, begin.audits, begin.prints, begin.packages,
        begin.entities;
      cursor, blocked := begin.cursor, begin.blocked;
    }

    // ----- local edits -----

    /** insertItems: one INSERT per line of the new revision. */
    method InsertItems(key: Key, revision: int, op: OpId, lines: seq<Line>)
      modifies `items
      ensures items == if lines == [] then old(items)
        else old(items)[(key, revision) := ItemsAt(old(items), key, revision) + LocalItems(op, lines)]
    {
      ghost var begin := items;
      for n := 0 to |lines|
        invariant items == if n == 0 then begin
          else begin[(key, revision) := ItemsAt(begin, key, revision) + LocalItems(op, lines[..n])]
      {
        LocalItemsGrow(op, lines, n);
        assert n == 0 ==> LocalItems(op, lines[..0]) == {};
        items := items[(key, revision) := ItemsAt(items, key, revision) + {Item(LocalItem(op, n), lines[n])}];
        assert ItemsAt(items, key, revision) == ItemsAt(begin, key, revision) + LocalItems(op, lines[..n + 1]);
      }
      assert lines[..|lines|] == lines;
    }

    /** insertOutbox. */
    method InsertOutbox(signed: Signed, signature: string, key: Key)
      modifies `outbox
      ensures outbox == old(outbox) + [NewOp(old(Tables()), signed, signature, key)]
    {
      var inherited := if blocked.Some? then Some(blocked.value.reason) else KeyQuarantine(outbox, key);
      outbox := outbox + [Op(signed, signature, key, Pending, 0, None, None, inherited)];
    }

    method CreateTransaction(key: Key, lines: seq<Line>, payment: PaymentMethod, hash: Option<string>,
        receipt: Option<string>, signing: Signing)
      returns (ok: bool)
      modifies this
      ensures Did(CreateTx(old(Tables()), key, lines, payment, hash, receipt, signing), ok)
    {
      var session := signing.session;
      var selected := Selected(lines);
      if SandboxOutdated(session) || LinesRefused(selected, payment) { return false; }
      if key in transactions || (key, 1) in revisions { return false; }
      var total := LinesTotal(selected);
      var row := Txn(1, Sale(signing.now, total, PaymentAmount(session, payment, total), payment, hash), session.actor,
                     session.name, session.terminal, SyncPending, PrintPending, PaymentSuccess, Some(1), None, receipt);
      var op := |outbox|;
      transactions := transactions[key := row];
      InsertItems(key, 1, op, selected);
      revisions := revisions[(key, 1) := Revision(None, Snapshot(row, LocalItems(op, selected)))];
      InsertOutbox(Sign(Create, None, signing), signing.signature, key);
      return true;
    }

    method CorrectTransaction(key: Key, lines: seq<Line>, payment: PaymentMethod, hash: Option<string>,
        signing: Signing) returns (ok: bool)
      modifies this
      ensures Did(CorrectTx(old(Tables()), key, lines, payment, hash, signing), ok)
    {
      var session := signing.session;
      if EditBlocked(Tables(), key) { return false; }
      var before := Hydrate(Tables(), key);
      var selected := Selected(lines);
      if SandboxOutdated(session) || !MayCorrect(session, before.row) || LinesRefused(selected, payment) {
        return false;
      }
      var row := CorrectedRow(before.row, LinesTotal(selected), payment, hash, session);
      if (key, row.revision) in revisions { return false; }
      RecordCorrection(key, before, row, selected, signing);
      return true;
    }

    method RecordCorrection(key: Key, before: Snapshot, row: Txn, lines: seq<Line>, signing: Signing)
      requires lines != []
      modifies this
      ensures Tables() == WriteCorrection(old(Tables()), key, before, row, lines, signing)
    {
      var op := |outbox|;
      transactions := transactions[key := row];
      InsertItems(key, row.revision, op, lines);
      revisions := revisions[(key, row.revision) := Revision(Some(before), Snapshot(row, LocalItems(op, lines)))];
      InsertOutbox(Sign(Correct, Some(before.row.revision), signing), signing.signature, key);
    }

    method SetPaymentStatus(key: Key, status: PaymentStatus, signing: Signing) returns (ok: bool)
      modifies this
      ensures Did(SetPaymentTx(old(Tables()), key, status, signing), ok)
    {
      var session := signing.session;
      if EditBlocked(Tables(), key) { return false; }
      var before := Hydrate(Tables(), key);
      if !MayCorrect(session, before.row) || status == PaymentPending { return false; }
      if before.row.paymentStatus == PaymentSuccess && before.row.confirmedRevision == Some(before.row.revision) {
        return status == PaymentSuccess;
      }
      if before.row.paymentStatus == status && status == PaymentFailed { return true; }
      var row := DecidedRow(before.row, status, session);
      transactions := transactions[key := row];
      audits := audits + [PaymentChanged(key, signing.now, before, before.(row := row))];
      InsertOutbox(Sign(SetPayment, Some(before.row.revision), signing), signing.signature, key);
      return true;
    }

    /** An attempt is begun only for the paid current revision of a live transaction none of whose
        operations is quarantined, in conflict or terminal. */
    method BeginPrintAttempt(key: Key, revision: int) returns (ok: bool)
      modifies `prints
      ensures Did(BeginPrint(old(Tables()), key, revision), ok)
      ensures ok ==>
        && prints == old(prints) + [Attempt(key, revision, AttemptPending)]
        && key in transactions && transactions[key].deletedAt.None? && transactions[key].revision == revision
        && transactions[key].paymentStatus == PaymentSuccess && transactions[key].confirmedRevision == Some(revision)
        && forall i :: 0 <= i < |outbox| && outbox[i].key == key ==>
          outbox[i].quarantine.None?
          && (outbox[i].OnTransaction() ==> outbox[i].state != Conflict && !outbox[i].Terminal())
    {
      if key !in transactions { return false; }
      var row := transactions[key];
      if row.deletedAt.Some? || row.syncState == SyncConflict || TerminalBlock(outbox, key)
        || row.revision != revision {
        return false;
      }
      if row.paymentStatus != PaymentSuccess || row.confirmedRevision != Some(row.revision) { return false; }
      if QuarantinedKey(outbox, key) { return false; }
      prints := prints + [Attempt(key, revision, AttemptPending)];
      return true;
    }

    method CompletePrintAttempt(attempt: nat, key: Key, result: PrintState, signing: Signing) returns (ok: bool)
      modifies this
      ensures Did(CompletePrint(old(Tables()), attempt, key, result, signing), ok)
    {
      if attempt >= |prints| || prints[attempt].key != key || prints[attempt].revision < 1 { return false; }
      prints := prints[attempt := prints[attempt].(result := AttemptDone(result))];
      if key in transactions && transactions[key].revision == prints[attempt].revision {
        transactions := transactions[key := transactions[key].(printState := result)];
      }
      InsertOutbox(Sign(PrintAttempt(attempt), None, signing), signing.signature, key);
      return true;
    }

    // ----- pushing -----

    method GetOutboxOperations(now: Time, limit: nat) returns (batch: seq<OpId>)
      ensures batch == Batch(outbox, 0, now, limit)
    {
      batch := Batch(outbox, 0, now, limit);
    }

    /** replaceTransaction. */
    method ReplaceTransaction(key: Key, snapshot: Snapshot)
      modifies `transactions, `items
      ensures Tables() == Replace(old(Tables()), key, snapshot)
    {
      transactions := transactions[key := snapshot.row];
      items := items[(key, snapshot.row.revision) := snapshot.items];
    }

    /** The branch of a payment conflict: the server's snapshot replaces the transaction and is kept. */
    method RecordPaymentConflict(op: OpId, message: string, status: PaymentStatus, confirmed: Option<int>,
        given: Snapshot, now: Time)
      requires op < |outbox|
      modifies this
      ensures Tables() == Mark(old(Tables()), op, MarkPaymentConflict(message, status, confirmed, given), now)
    {
      var key := outbox[op].key;
      outbox := outbox[op := Reject(outbox[op], PAYMENT_CONFLICT_PREFIX + message)];
      var authoritative := Authoritative(given, status, confirmed);
      ReplaceTransaction(key, authoritative);
      audits := audits + [PaymentConflictKept(key, op, authoritative)];
      outbox := Cascade(outbox, key, op, CASCADE_REJECTED + message);
      transactions := SetSync(transactions, key, SyncError);
    }

    /** markOutboxResult, for an operation of a fetched batch (rows are never deleted). */
    method MarkOutboxResult(op: OpId, result: MarkResult, now: Time)
      requires op < |outbox|
      modifies this
      ensures Tables() == Mark(old(Tables()), op, result, now)
    {
      var row, key := outbox[op], outbox[op].key;
      var preserve := result.MarkRejected? && PreservesEvidence(Tables(), op);
      match result
      case MarkSuccess =>
        outbox := outbox[op := row.(state := Synced, lastError := None)];
        transactions := SetSync(transactions, key, if HasUnsettled(outbox, key) then SyncPending else SyncSynced);
      case MarkError(message) =>
        outbox := outbox[op :=
          row.(state := Error, attempts := row.attempts + 1, lastError := Some(message),
          nextAttempt := Some(now + RETRY_DELAY))];
        transactions := SetSync(transactions, key, SyncError);
      case MarkRejected(message) =>
        outbox := outbox[op := Reject(row, message)];
        if row.OnTransaction() && !preserve { transactions := Unconfirm(transactions, key, SyncError); }
        outbox := Cascade(outbox, key, op, CASCADE_REJECTED + message);
        transactions := SetSync(transactions, key, SyncError);
      case MarkPaymentConflict(message, status, confirmed, given) =>
        RecordPaymentConflict(op, message, status, confirmed, given, now);
      case MarkConflict(local, server) =>
        outbox := outbox[op := row.(state := Conflict, lastError := Some("REVISION_CONFLICT"))];
        outbox := Cascade(outbox, key, op, CASCADE_CONFLICT);
        transactions := Unconfirm(transactions, key, SyncConflict);
        conflicts := conflicts + [ConflictRow(key, local, server, None)];
    }

    // ----- discarding -----

    /** The recovery inside a discard; the caller rolls back when it fails. */
    method RecoverTransaction(key: Key, rows: seq<OpId>, now: Time) returns (ok: bool)
      requires rows != [] && forall x :: 0 <= x < |rows| ==> rows[x] < |outbox|
      modifies `transactions, `items, `revisions
      ensures var outcome := Recover(old(Tables()), key, rows, now);
        ok == outcome.Committed? && (ok ==> Tables() == outcome.db)
    {
      if exists x :: 0 <= x < |rows| && outbox[rows[x]].signed.action == Create {
        if Protected(Tables(), key) { return false; }
        if key in transactions {
          var row := transactions[key];
          var deleted := if row.deletedAt.Some? then row.deletedAt else Some(now);
          transactions := Unconfirm(transactions[key := row.(deletedAt := deleted)], key, SyncError);
        }
        return true;
      }
      var conflict := FirstPaymentConflict(outbox, rows);
      if conflict.Some? {
        ok := RecoverFromServer(key, rows, conflict.value);
      } else {
        ok := RecoverFromSnapshots(key, rows);
      }
    }

    method RecoverFromServer(key: Key, rows: seq<OpId>, conflict: OpId) returns (ok: bool)
      requires forall x :: 0 <= x < |rows| ==> rows[x] < |outbox|
      modifies `transactions, `items, `revisions
      ensures var outcome := RecoverAuthoritative(old(Tables()), key, rows, conflict);
        ok == outcome.Committed? && (ok ==> Tables() == outcome.db)
    {
      var authoritative := LastConflictAudit(audits, key, conflict);
      if authoritative.None? { return false; }
      DeleteCorrections(key, rows);
      ReplaceTransaction(key, WithSync(authoritative.value, SyncSynced));
      DeleteArtifactsFrom(key, authoritative.value.row.revision + 1);
      return true;
    }

    method DeleteCorrections(key: Key, rows: seq<OpId>)
      requires forall x :: 0 <= x < |rows| ==> rows[x] < |outbox|
      modifies `items, `revisions
      ensures Tables() == DropCorrections(old(Tables()), key, rows)
    {
      var first := FirstCorrection(outbox, rows);
      if first.Some? { DeleteArtifactsFrom(key, first.value); }
    }

    /** Undoes the rejected edits newest first, each from the snapshot stored before it. */
    method RecoverFromSnapshots(key: Key, rows: seq<OpId>) returns (ok: bool)
      requires rows != [] && forall x :: 0 <= x < |rows| ==> rows[x] < |outbox|
      modifies `transactions, `items, `revisions
      ensures var outcome := RecoverEdits(old(Tables()), key, rows);
        ok == outcome.Committed? && (ok ==> Tables() == outcome.db)
    {
      ghost var begin := Tables();
      var n, restored := |rows|, 0;
      while n > 0
        invariant 0 <= n <= |rows| && outbox == begin.ops
        invariant n > 0 ==>
          RestoreRows(begin, key, begin.ops, rows, |rows|) == RestoreRows(Tables(), key, begin.ops, rows, n)
        invariant n == 0 ==> RestoreRows(begin, key, begin.ops, rows, |rows|) == Restored(Tables(), restored)
      {
        var before := StoredBefore(Tables(), key, outbox[rows[n - 1]]);
        if before.None? { return false; }
        ReplaceTransaction(key, WithSync(before.value, SyncSynced));
        restored := before.value.row.revision;
        n := n - 1;
      }
      DeleteArtifactsFrom(key, restored + 1);
      return true;
    }

    /** deleteTransactionArtifactsFromRevision. */
    method DeleteArtifactsFrom(key: Key, bound: int)
      modifies `items, `revisions
      ensures Tables() == DropFrom(old(Tables()), key, bound)
    {
      items := ItemsBelow(items, key, bound);
      revisions := RevisionsBelow(revisions, key, bound);
    }

    method DiscardRejectedOperation(op: OpId, now: Time) returns (ok: bool)
      modifies this
      ensures Did(Discard(old(Tables()), op, now), ok)
    {
      var begin := Tables();
      if op >= |outbox| || outbox[op].quarantine.Some? || outbox[op].state != Rejected { return true; }
      var key := outbox[op].key;
      if HasState(outbox, key, Conflict) || QuarantinedKey(outbox, key) { return false; }
      if outbox[op].OnTransaction() {
        var found := RejectedRows(outbox, key, |outbox|);
        var recovered := RecoverTransaction(key, if found == [] then [op] else found, now);
        if !recovered {
          Rollback(begin);
          return false;
        }
        outbox := ResolveTerminal(outbox, key);
      } else {
        outbox := outbox[op := Settle(outbox[op], Discarded)];
        transactions := SetSync(transactions, key, Recomputed(outbox, key));
      }
      return true;
    }

    // ----- resolving -----

    method ResolveConflict(id: nat, shown: ConflictRow, resolution: Resolution, signing: Signing) returns (ok: bool)
      modifies this
      ensures Did(Resolve(old(Tables()), id, shown, resolution, signing), ok)
    {
      var key, local, server, session := shown.key, shown.local, shown.server, signing.session;
      if resolution == RetryLocal && SandboxOutdated(session) { return false; }
      if !MayCorrect(session, server.row) || QuarantinedKey(outbox, key) { return false; }
      var found := ConflictSource(outbox, key, 0);
      if found.None? { return false; }
      var source := found.value;
      if resolution == RetryLocal && (server.row.deletedAt.Some? || outbox[source].signed.action != Correct) {
        return false;
      }
      if id >= |conflicts| || shown.resolution.Some? || conflicts[id] != shown { return false; }
      var begin := Tables();
      DeleteArtifactsFrom(key, local.row.revision);
      if resolution == UseServer {
        ReplaceTransaction(key, WithSync(server, SyncSynced));
      } else {
        var signed := Sign(Correct, Some(server.row.revision), signing.(payload := outbox[source].signed.payload));
        var inserted := InsertRebased(key, server, Rebased(local, server, session), signed, signing.signature);
        if !inserted {
          Rollback(begin);
          return false;
        }
      }
      CloseConflictRecord(source, key, id, resolution);
      return true;
    }

    /** The rows of a retry; inserting the revision fails when it is taken. */
    method InsertRebased(key: Key, server: Snapshot, rebased: Snapshot, signed: Signed, signature: string)
        returns (ok: bool)
      modifies this
      ensures var db, at := old(Tables()), (key, rebased.row.revision);
        && (ok <==> at !in db.revs)
        && (ok ==> Tables() == Replace(db, key, rebased).(
              revs := db.revs[at := Revision(Some(WithSync(server, SyncSynced)), rebased)],
              ops := db.ops + [NewOp(db, signed, signature, key)]))
    {
      ReplaceTransaction(key, rebased);
      if (key, rebased.row.revision) in revisions { return false; }
      revisions := revisions[(key, rebased.row.revision) := Revision(Some(WithSync(server, SyncSynced)), rebased)];
      InsertOutbox(signed, signature, key);
      return true;
    }

    method CloseConflictRecord(source: OpId, key: Key, id: nat, resolution: Resolution)
      requires source < |outbox| && id < |conflicts|
      modifies `outbox, `conflicts
      ensures Tables() == CloseConflict(old(Tables()), source, key, id, resolution)
    {
      outbox := outbox[source := Settle(outbox[source], Resolved)];
      outbox := ResolveRejected(outbox, key);
      conflicts := conflicts[id := conflicts[id].(resolution := Some(resolution))];
    }

    // ----- pulling -----

    method ApplyTransactionChange(key: Key, change: Change)
      requires change.TxUpsert? || change.TxDelete?
      modifies this
      ensures Tables() == ApplyToTx(old(Tables()), key, change)
    {
      conflicts := FollowServer(conflicts, key, change);
      var first := FirstTerminalCorrection(outbox, key, |outbox|);
      if first.Some? { DeleteArtifactsFrom(key, first.value); }
      if change.TxUpsert? {
        ReplaceTransaction(key, WithSync(change.snapshot, SyncSynced));
      } else if key in transactions {
        var row := transactions[key];
        var deletedAt := if row.deletedAt.Some? then row.deletedAt else Some(change.at);
        transactions := transactions[key := row.(deletedAt := deletedAt, syncState := SyncSynced)];
      }
      outbox := ResolveTerminal(outbox, key);
      transactions := SetSync(transactions, key, Recomputed(outbox, key));
    }

    method ApplyRemoteChanges(changes: seq<Change>, nextCursor: nat, now: Time)
      modifies this
      ensures Tables() == ApplyPage(old(Tables()), changes, nextCursor, now)
    {
      ghost var begin := Tables();
      for n := 0 to |changes|
        invariant ApplyChanges(begin, changes, now) == ApplyChanges(Tables(), changes[n..], now)
      {
        assert changes[n..][0] == changes[n] && changes[n..][1..] == changes[n + 1..];
        ApplyRemoteChange(changes[n], now);
      }
      cursor := Some(nextCursor);
    }

    method ApplyRemoteChange(change: Change, now: Time)
      modifies this
      ensures Tables() == ApplyChange(old(Tables()), change, now)
    {
      match change
      case PackageUpsert(id, package) => packages := UpsertPackage(packages, id, package);
      case PackageDelete(id) => packages := DeletePackage(packages, id, now);
      case TxUpsert(key, _) => if !QuarantinedKey(outbox, key) { ApplyTransactionChange(key, change); }
      case TxDelete(key, _) => if !QuarantinedKey(outbox, key) { ApplyTransactionChange(key, change); }
      case PrintUpsert(id, payload, target) =>
        entities := entities[("print_attempt", id) := Some(payload)];
        if target.Some? && !QuarantinedKey(outbox, target.value.0) {
          transactions := SetPrint(transactions, target.value.0, target.value.1);
        }
      case OtherChange(aggregate, id, body) => entities := entities[(aggregate, id) := body];
    }

    /** upsertPackage: a row of the server's package list, written outside the change log. An older
        revision than the stored one changes nothing. */
    method StorePackage(id: string, package: Package)
      modifies `packages
      ensures Tables() == old(Tables()).(packages := UpsertPackage(old(packages), id, package))
      ensures id in packages && packages[id].revision >= package.revision
      ensures packages[id] == package || (id in old(packages) && packages == old(packages))
      ensures id in old(packages) ==> packages[id].revision >= old(packages)[id].revision
    {
      if id !in packages || package.revision >= packages[id].revision { packages := packages[id := package]; }
    }

    // ----- quarantine -----

    /** From now on nothing is sent, at whatever time, and the rows are otherwise as they were. */
    method BlockScope(actor: Actor, reason: string)
      modifies `outbox, `blocked
      ensures Tables() == QuarantineScope(old(Tables()), actor, reason)
      ensures forall now: Time, limit: nat :: Batch(outbox, 0, now, limit) == []
      ensures |outbox| == |old(outbox)| && forall i :: 0 <= i < |outbox| ==>
        outbox[i] == old(outbox)[i].(quarantine := outbox[i].quarantine)
    {
      blocked := Some(Block(reason, if FollowsActor(reason) then Some(actor) else None));
      outbox := QuarantineUnsettled(outbox, reason);
      forall now: Time, limit: nat ensures Batch(outbox, 0, now, limit) == [] {
        Quarantine.SilentBatch(outbox, 0, now, limit);
      }
    }

    /** From now on a new operation is quarantined exactly if an older one of its transaction still is. */
    method MarkScopeRevalidated()
      modifies `blocked
      ensures Tables() == ScopeRevalidated(old(Tables()))
      ensures forall signed: Signed, signature: string, key: Key ::
        NewOp(Tables(), signed, signature, key).quarantine.Some? <==> QuarantinedKey(outbox, key)
    {
      blocked := None;
    }

    /** One batch of revalidateQuarantinedOperations: frees the rows whose origin was allowed, counts
        them and, if it freed any, forgets the cursor in the same transaction. */
    method ReleaseAllowed(rows: seq<OpId>, actor: Actor, allowed: set<Origin>) returns (released: nat)
      requires forall x :: 0 <= x < |rows| ==> rows[x] < |outbox| && outbox[rows[x]].signed.originActor == actor
      modifies `outbox, `cursor
      ensures Tables() == ReleaseBatch(old(Tables()), (set r | r in rows), actor, allowed)
      ensures released == |Freed(old(outbox), outbox)|
    {
      ghost var begin := Tables();
      released := 0;
      for n := 0 to |rows|
        invariant cursor == begin.cursor
        invariant ReleasedSoFar(begin.ops, outbox, rows[..n], allowed) && released == |Freed(begin.ops, outbox)|
      {
        assert rows[..n + 1] == rows[..n] + [rows[n]];
        ReleaseRow(begin.ops, outbox, rows[..n], rows[n], allowed);
        if OriginOf(outbox[rows[n]]) in allowed && outbox[rows[n]].quarantine.Some? {
          outbox := outbox[rows[n] := outbox[rows[n]].(quarantine := None)];
          released := released + 1;
        }
      }
      assert rows[..|rows|] == rows;
      NothingFreed(begin.ops, outbox);
      if released > 0 { cursor := None; }
      Released(begin, Tables(), rows, actor, allowed);
    }
  }

  /** The allowed ones among the rows done are free, everything else is as it was. */
  ghost predicate ReleasedSoFar(ops: seq<Op>, later: seq<Op>, done: seq<OpId>, allowed: set<Origin>) {
    && |later| == |ops|
    && forall i :: 0 <= i < |ops| ==> later[i] == ReleasedRow(ops[i], i in done && OriginOf(ops[i]) in allowed)
  }

  lemma ReleaseRow(ops: seq<Op>, later: seq<Op>, done: seq<OpId>, r: OpId, allowed: set<Origin>)
    requires ReleasedSoFar(ops, later, done, allowed) && r < |ops|
    ensures var frees := OriginOf(later[r]) in allowed && later[r].quarantine.Some?;
      var next := if frees then later[r := later[r].(quarantine := None)] else later;
      && ReleasedSoFar(ops, next, done + [r], allowed)
      && |Freed(ops, next)| == |Freed(ops, later)| + if frees then 1 else 0
  {
    if OriginOf(later[r]) in allowed && later[r].quarantine.Some? {
      assert Freed(ops, later[r := later[r].(quarantine := None)]) == Freed(ops, later) + {r};
    }
  }

  /** The operations whose quarantine was lifted. */
  function Freed(ops: seq<Op>, later: seq<Op>): set<OpId>
    requires |ops| == |later|
  {
    set i: nat | i < |ops| && ops[i].quarantine.Some? && later[i].quarantine.None?
  }

  function ReleasedRow(op: Op, released: bool): Op {
    if released then op.(quarantine := None) else op
  }

  lemma NothingFreed(ops: seq<Op>, later: seq<Op>)
    requires |ops| == |later| && forall i :: 0 <= i < |ops| ==>
      later[i] == ops[i] || later[i] == ops[i].(quarantine := None)
    ensures |Freed(ops, later)| == 0 <==> later == ops
  {
    if i :| 0 <= i < |ops| && later[i] != ops[i] { assert i in Freed(ops, later); }
  }

  lemma Released(begin: Db, next: Db, rows: seq<OpId>, actor: Actor, allowed: set<Origin>)
    requires forall x :: 0 <= x < |rows| ==> rows[x] < |begin.ops| && begin.ops[rows[x]].signed.originActor == actor
    requires next == begin.(ops := next.ops, cursor := next.cursor) && |next.ops| == |begin.ops|
    requires forall i :: 0 <= i < |begin.ops| ==>
      next.ops[i] == ReleasedRow(begin.ops[i], i in rows && OriginOf(begin.ops[i]) in allowed)
    requires next.cursor == if next.ops == begin.ops then begin.cursor else None
    ensures next == ReleaseBatch(begin, (set r | r in rows), actor, allowed)
  {
    var all := set r | r in rows;
    forall i | 0 <= i < |begin.ops|
      ensures Releasable(begin.ops, all, actor, allowed, i)
        <==> i in rows && OriginOf(begin.ops[i]) in allowed && begin.ops[i].quarantine.Some?
    {
    }
    if i :| 0 <= i < |begin.ops| && Releasable(begin.ops, all, actor, allowed, i) {
      assert next.ops[i] != begin.ops[i];
    }
    else { assert next.ops == begin.ops; }
    assert next.ops == ReleaseBatch(begin, all, actor, allowed).ops;
  }
}
