/** What a revision conflict records: the two sides that the server's answer names, and then the
    server side as the pulls go on. */
module ConflictRecords {
  import opened LocalTables
  import opened Repository
  import opened Device
  import opened Frames
  import opened InOrder
  import opened Conflicts
  import opened Quarantine

  // ----- what an answer records -----

  /** The items are exactly the lines, numbered from one. */
  ghost predicate HoldsLines(items: set<Item>, key: Key, revision: int, lines: seq<Line>) {
    |items| == |lines| && forall i :: 0 <= i < |lines| ==> Item(MergedItem(key, revision, i + 1), lines[i]) in items
  }

  /** The snapshot is the sale, payment state and lines of the answer at a revision; what the answer
      does not say is as in the row. */
  ghost predicate Says(snapshot: Snapshot, key: Key, row: Txn, api: ApiSnapshot, revision: int,
      receipt: Option<string>) {
    && snapshot.row.revision == revision && snapshot.row.sale == api.sale
    && snapshot.row.receiptIdentity == (if api.receipt.Some? then api.receipt else receipt)
    && snapshot.row.originActor == row.originActor && snapshot.row.updatedBy == row.updatedBy
    && snapshot.row.terminal == row.terminal && snapshot.row.printState == row.printState
    && snapshot.row.deletedAt == row.deletedAt
    && HoldsLines(snapshot.items, key, revision, api.lines)
  }

  lemma {:induction false} LinesListed(key: Key, revision: int, lines: seq<Line>, n: nat)
    requires n <= |lines|
    ensures |MergedItems(key, revision, lines[..n])| == n
    decreases n
  {
    if n == 0 {
      assert MergedItems(key, revision, lines[..0]) == {};
    } else {
      LinesListed(key, revision, lines, n - 1);
      var before, last := MergedItems(key, revision, lines[..n - 1]), Item(MergedItem(key, revision, n), lines[n - 1]);
      forall item | item in MergedItems(key, revision, lines[..n]) ensures item in before + {last} {
        var i: nat :| i < n && item == Item(MergedItem(key, revision, i + 1), lines[..n][i]);
        if i < n - 1 { assert lines[..n - 1][i] == lines[..n][i]; }
      }
      forall item | item in before + {last} ensures item in MergedItems(key, revision, lines[..n]) {
        if item in before {
          var i: nat :| i < n - 1 && item == Item(MergedItem(key, revision, i + 1), lines[..n - 1][i]);
          assert lines[..n][i] == lines[..n - 1][i];
        } else {
          assert lines[..n][n - 1] == lines[n - 1];
        }
      }
      assert MergedItems(key, revision, lines[..n]) == before + {last};
    }
  }

  lemma MergedHoldsLines(key: Key, revision: int, lines: seq<Line>)
    ensures HoldsLines(MergedItems(key, revision, lines), key, revision, lines)
  {
    LinesListed(key, revision, lines, |lines|);
    assert lines[..|lines|] == lines;
  }

  /** A revision conflict of a known edit appends one open record: its server side is what the answer
      says of the server at the server's revision, its local side what it says of the local edit at
      the revision above the edit's base. The row waits in conflict, unconfirmed. */
  lemma ConflictIsRecorded(d: Device, i: OpId, base: int, current: int, local: ApiSnapshot, server: ApiSnapshot,
      message: string, now: Time)
    requires i in d.inFlight && i < |d.db.ops| && d.db.ops[i].OnTransaction() && d.db.ops[i].key in d.db.txs
    requires base >= 0 && current >= 1
    ensures var key, n := d.db.ops[i].key, |d.db.conflicts|;
      var row := d.db.txs[key];
      var next := Next(d, DoMark(i, RevisionConflict(base, current, local, server, message), now)).db;
      && |next.conflicts| == n + 1 && next.conflicts[..n] == d.db.conflicts
      && Open(next.conflicts, n, key) && InConflict(next.ops, i, key)
      && var record := next.conflicts[n];
      && Says(record.server, key, row, server, current,
        if local.receipt.Some? then local.receipt else row.receiptIdentity)
      && record.server.row.paymentStatus == server.status && record.server.row.confirmedRevision == server.confirmed
      && Says(record.local, key, row, local, base + 1, row.receiptIdentity)
      && record.local.row.paymentStatus == local.status && record.local.row.confirmedRevision == local.confirmed
      && next.txs[key] == row.(paymentStatus := PaymentPending, confirmedRevision := None, syncState := SyncConflict)
  {
    var key := d.db.ops[i].key;
    MergedHoldsLines(key, base + 1, local.lines);
    MergedHoldsLines(key, current, server.lines);
    RecordAppended(d, i, base, current, local, server, message, now);
  }

  lemma RecordAppended(d: Device, i: OpId, base: int, current: int, local: ApiSnapshot, server: ApiSnapshot,
      message: string, now: Time)
    requires i in d.inFlight && i < |d.db.ops| && d.db.ops[i].OnTransaction() && d.db.ops[i].key in d.db.txs
    requires base >= 0 && current >= 1
    ensures var key, db := d.db.ops[i].key, d.db;
      var mine := MergeSnapshot(key, Hydrate(db, key), local, base + 1);
      var next := Next(d, DoMark(i, RevisionConflict(base, current, local, server, message), now)).db;
      && next.conflicts == db.conflicts + [ConflictRow(key, mine, MergeSnapshot(key, mine, server, current), None)]
      && InConflict(next.ops, i, key)
      && next.txs == Unconfirm(db.txs, key, SyncConflict)
  {
  }

  /** A payment conflict of a known edit stores what the answer says of the server, with the payment
      state that the answer itself names, as the transaction and for a later discard. */
  lemma PaymentConflictIsKept(d: Device, i: OpId, current: int, status: PaymentStatus, confirmed: Option<int>,
      server: ApiSnapshot, message: string, now: Time)
    requires i in d.inFlight && i < |d.db.ops| && d.db.ops[i].OnTransaction() && d.db.ops[i].key in d.db.txs
    requires current >= 1
    requires if status == PaymentSuccess then confirmed.Some? && confirmed.value >= 1 else confirmed.None?
    ensures var key, n := d.db.ops[i].key, |d.db.audits|;
      var row := d.db.txs[key];
      var next := Next(d, DoMark(i, PaymentConflict(current, status, confirmed, server, message), now)).db;
      && key in next.txs && Says(Hydrate(next, key), key, row, server, current, row.receiptIdentity)
      && next.txs[key].paymentStatus == status && next.txs[key].confirmedRevision == confirmed
      && next.txs[key].syncState == SyncError
      && next.audits == d.db.audits + [PaymentConflictKept(key, i, Hydrate(next, key))]
      && next.ops[i].state == Rejected && next.ops[i].lastError == Some(PAYMENT_CONFLICT_PREFIX + message)
      && next.conflicts == d.db.conflicts
  {
    var key := d.db.ops[i].key;
    MergedHoldsLines(key, current, server.lines);
    var given := MergeSnapshot(key, Hydrate(d.db, key), server, current);
    assert Interpret(d.db, i, PaymentConflict(current, status, confirmed, server, message))
      == MarkPaymentConflict(message, status, confirmed, given);
    SnapshotStored(d.db, i, message, status, confirmed, given, now);
  }

  lemma SnapshotStored(db: Db, i: OpId, message: string, status: PaymentStatus, confirmed: Option<int>, given: Snapshot,
      now: Time)
    requires i < |db.ops|
    ensures var key, next := db.ops[i].key, Mark(db, i, MarkPaymentConflict(message, status, confirmed, given), now);
      && key in next.txs && next.conflicts == db.conflicts
      && Hydrate(next, key)
         == given.(row := given.row.(syncState := SyncError, paymentStatus := status, confirmedRevision := confirmed))
      && next.audits == db.audits + [PaymentConflictKept(key, i, Hydrate(next, key))]
      && next.ops[i].state == Rejected && next.ops[i].lastError == Some(PAYMENT_CONFLICT_PREFIX + message)
  {
  }

  lemma MarkSettles(db: Db, i: OpId, result: MarkResult, now: Time)
    requires i < |db.ops|
    ensures var op, next := db.ops[i], Mark(db, i, result, now).ops;
      i < |next| && next[i] ==
      match result
      case MarkSuccess => op.(state := Synced, lastError := None)
      case MarkError(m) =>
        op.(state := Error, attempts := op.attempts + 1, lastError := Some(m), nextAttempt := Some(now + 30_000))
      case MarkRejected(m) => Failed(op, m)
      case MarkConflict(_, _) => op.(state := Conflict, lastError := Some("REVISION_CONFLICT"))
      case MarkPaymentConflict(m, _, _, _) => Failed(op, "PAYMENT_STATE_CONFLICT: " + m)
  {
  }

  /** Refused for good: one attempt more, and never due again. */
  function Failed(op: Op, message: string): Op {
    Op(op.signed, op.signature, op.key, Rejected, op.attempts + 1, Some(message), None, op.quarantine)
  }

  /** How every answer settles its operation, and when it is due again. */
  lemma AnswerSettles(d: Device, i: OpId, answer: Answer, now: Time)
    requires i in d.inFlight && i < |d.db.ops|
    ensures var op, next := d.db.ops[i], Next(d, DoMark(i, answer, now)).db.ops[i];
      var known := op.OnTransaction() && op.key in d.db.txs;
      var later := op.(state := Error, attempts := op.attempts + 1, nextAttempt := Some(now + 30_000));
      match answer
      case Applied => next == op.(state := Synced, lastError := None)
      case NoAnswer => next == later.(lastError := Some(NO_RESULT))
      case OtherStatus(m) => next == later.(lastError := Some(m))
      case Refusal(m) => next == Failed(op, m)
      case OtherConflict(m) => next == Failed(op, m)
      case RevisionConflict(base, current, _, _, m) =>
        next == if base >= 0 && current >= 1 && known
          then op.(state := Conflict, lastError := Some("REVISION_CONFLICT")) else Failed(op, m)
      case PaymentConflict(current, status, confirmed, _, m) =>
        var stated := if status == PaymentSuccess then confirmed.Some? && confirmed.value >= 1 else confirmed.None?;
        next == Failed(op,
          if current < 1 || !stated then m
          else if known then "PAYMENT_STATE_CONFLICT: " + m
          else "Konflik pembayaran tidak dapat dipetakan ke transaksi lokal.")
  {
    MarkSettles(d.db, i, Interpret(d.db, i, answer), now);
  }

  /** A payment was made, or a receipt printed, for the transaction: now, or according to an audit. */
  ghost predicate Proved(db: Db, key: Key) {
    && key in db.txs
    && (|| db.txs[key].paymentStatus == PaymentSuccess
        || (exists attempt :: attempt in db.prints && attempt.key == key)
        || (exists audit :: audit in db.audits && audit.PaymentChanged? && audit.key == key
              && audit.after.row.paymentStatus == PaymentSuccess
              && audit.after.row.confirmedRevision == Some(audit.after.row.revision)))
  }

  /** The operation is the create, or waits behind a refused create of its transaction. */
  predicate Creates(ops: seq<Op>, i: OpId)
    requires i < |ops|
  {
    ops[i].signed.action == Create || exists h :: 0 <= h < i && RefusedCreate(ops[h], ops[i].key)
  }

  predicate RefusedCreate(op: Op, key: Key) {
    op.key == key && op.signed.action == Create && op.state == Rejected
  }

  /** Another operation of the same transaction is not settled. */
  predicate OthersWait(ops: seq<Op>, i: OpId)
    requires i < |ops|
  {
    exists j :: 0 <= j < |ops| && Waits(ops[j], ops[i].key) && j != i
  }

  predicate Waits(op: Op, key: Key) { op.key == key && op.state in {Pending, Error, Conflict, Rejected} }

  lemma ProvedIsProtected(db: Db, key: Key)
    ensures Proved(db, key) <==> Protected(db, key)
  {
    if attempt :| attempt in db.prints && attempt.key == key {
      var p :| 0 <= p < |db.prints| && db.prints[p] == attempt;
    }
    if audit :| audit in db.audits && audit.PaymentChanged? && audit.key == key
                  && audit.after.row.paymentStatus == PaymentSuccess
                  && audit.after.row.confirmedRevision == Some(audit.after.row.revision) {
      var a :| 0 <= a < |db.audits| && db.audits[a] == audit;
    }
  }

  /** What every answer leaves of the row. A refusal takes the confirmation back, except that a create
      whose payment or print is proved keeps it. */
  lemma AnswerShows(d: Device, i: OpId, answer: Answer, now: Time)
    requires i in d.inFlight && i < |d.db.ops| && d.db.ops[i].key in d.db.txs
    requires !answer.RevisionConflict? && !answer.PaymentConflict?
    ensures var op, next := d.db.ops[i], Next(d, DoMark(i, answer, now)).db;
      var row := d.db.txs[op.key];
      && next == d.db.(txs := next.txs, ops := next.ops)
      && next.txs == d.db.txs[op.key :=
        if answer.Applied? then row.(syncState := if OthersWait(d.db.ops, i) then SyncPending else SyncSynced)
        else if answer.NoAnswer? || answer.OtherStatus? then row.(syncState := SyncError)
        else if !op.OnTransaction() || (Creates(d.db.ops, i) && Proved(d.db, op.key)) then row.(syncState := SyncError)
        else row.(syncState := SyncError, paymentStatus := PaymentPending, confirmedRevision := None)]
  {
    ProvedIsProtected(d.db, d.db.ops[i].key);
    var result := Interpret(d.db, i, answer);
    if answer.Applied? {
      SyncedShows(d.db, i, now);
    } else {
      assert PreservesEvidence(d.db, i)
        <==> d.db.ops[i].OnTransaction() && Creates(d.db.ops, i) && Proved(d.db, d.db.ops[i].key);
    }
  }

  lemma SyncedShows(db: Db, i: OpId, now: Time)
    requires i < |db.ops| && db.ops[i].key in db.txs
    ensures var key := db.ops[i].key;
      var next := Mark(db, i, MarkSuccess, now);
      && next == db.(txs := next.txs, ops := next.ops)
      && next.txs == db.txs[key := db.txs[key].(syncState := if OthersWait(db.ops, i) then SyncPending else SyncSynced)]
  {
    var key, next := db.ops[i].key, Mark(db, i, MarkSuccess, now);
    if j :| 0 <= j < |db.ops| && Waits(db.ops[j], key) && j != i { assert next.ops[j].Unsettled(); }
    if HasUnsettled(next.ops, key) {
      var j :| 0 <= j < |next.ops| && next.ops[j].key == key && next.ops[j].Unsettled();
      assert j != i && Waits(db.ops[j], key);
    }
  }

  // ----- the server side follows the pulls -----

  /** The server side of an open record after one change of the log. */
  function Followed(server: Snapshot, change: Change, key: Key): Snapshot {
    match change
    case TxUpsert(k, snapshot) => if k == key then WithSync(snapshot, SyncConflict) else server
    case TxDelete(k, at) =>
      if k == key then server.(row := server.row.(syncState := SyncConflict, deletedAt := Some(at))) else server
    case _ => server
  }

  function FollowedAll(server: Snapshot, entries: seq<Entry>, key: Key): Snapshot
    decreases |entries|
  {
    if entries == [] then server
    else Followed(FollowedAll(server, entries[..|entries| - 1], key), entries[|entries| - 1].change, key)
  }

  lemma {:induction false} FollowedSplit(server: Snapshot, first: seq<Entry>, second: seq<Entry>, key: Key)
    ensures FollowedAll(server, first + second, key) == FollowedAll(FollowedAll(server, first, key), second, key)
    decreases |second|
  {
    if second == [] {
      assert first + second == first;
    } else {
      assert (first + second)[..|first + second| - 1] == first + second[..|second| - 1];
      FollowedSplit(server, first, second[..|second| - 1], key);
    }
  }

  /** Of an open record a change touches the server side alone, unless its transaction is quarantined. */
  lemma ChangeRefreshes(db: Db, change: Change, now: Time, c: nat, key: Key)
    requires Booked(db) && Open(db.conflicts, c, key) && !QuarantinedKey(db.ops, key)
    ensures var next := ApplyChange(db, change, now);
      && c < |next.conflicts|
      && next.conflicts[c] == db.conflicts[c].(server := Followed(db.conflicts[c].server, change, key))
  {
    if change.TxUpsert? || change.TxDelete? {
      if change.key == key {
        assert KeyBooked(db, key);
        var open := OpenConflict(db.conflicts, key, |db.conflicts|);
        assert open.Some? && Open(db.conflicts, open.value, key);
      } else if !QuarantinedKey(db.ops, change.key) {
        ApplyToTxFrame(db, change.key, change);
      }
    }
  }

  lemma {:induction false} PageRefreshes(db: Db, entries: seq<Entry>, now: Time, c: nat, key: Key)
    requires Booked(db) && Open(db.conflicts, c, key) && !QuarantinedKey(db.ops, key)
    ensures var next := ApplyChanges(db, Changes(entries), now);
      && c < |next.conflicts|
      && next.conflicts[c] == db.conflicts[c].(server := FollowedAll(db.conflicts[c].server, entries, key))
    decreases |entries|
  {
    if entries != [] {
      var head, rest := entries[0].change, entries[1..];
      var next := ApplyChange(db, head, now);
      assert Changes(entries)[1..] == Changes(rest) && entries == [entries[0]] + rest && [entries[0]][..0] == [];
      ChangeRefreshes(db, head, now, c, key);
      ApplyChangeStaysBooked(db, head, now);
      ApplyChangeOps(db, head, now);
      PageRefreshes(next, rest, now, c, key);
      FollowedSplit(db.conflicts[c].server, [entries[0]], rest, key);
      assert FollowedAll(db.conflicts[c].server, [entries[0]], key) == Followed(db.conflicts[c].server, head, key);
    }
  }

  /** The log rows that a step pulls for a transaction that is not quarantined. */
  function PulledBy(d: Device, step: Step, key: Key): seq<Entry> {
    if step.DoPullPage? && d.pull.Some? && !QuarantinedKey(d.db.ops, key) then
      var page := PullPage(d.log, d.pull.value, step.limit);
      d.log[page.start..page.end]
    else []
  }

  function Pulled(d: Device, steps: seq<Step>, key: Key): seq<Entry>
    decreases |steps|
  {
    if steps == [] then []
    else Pulled(d, steps[..|steps| - 1], key) + PulledBy(Run(d, steps[..|steps| - 1]), steps[|steps| - 1], key)
  }

  /** Records are only appended, keep their transaction, and are never opened again; `next` has the
      record `c` as `db` has it. */
  ghost predicate RecordsKept(db: Db, next: Db) {
    && |db.conflicts| <= |next.conflicts|
    && forall c :: 0 <= c < |db.conflicts| ==>
         && next.conflicts[c].key == db.conflicts[c].key
         && (next.conflicts[c].resolution.None? ==> db.conflicts[c].resolution.None?)
  }

  ghost predicate OpenKept(db: Db, next: Db) {
    && RecordsKept(db, next)
    && forall c :: 0 <= c < |db.conflicts| && next.conflicts[c].resolution.None? ==>
         next.conflicts[c] == db.conflicts[c]
  }

  lemma EditKeepsRecords(db: Db, edit: Edit)
    ensures var r := ApplyEdit(db, edit); r.Committed? ==> r.db.conflicts == db.conflicts
  {
  }

  lemma MarkKeepsRecords(db: Db, i: OpId, result: MarkResult, now: Time)
    requires i < |db.ops|
    ensures OpenKept(db, Mark(db, i, result, now))
  {
  }

  lemma ResolveKeepsRecords(db: Db, id: nat, shown: ConflictRow, resolution: Resolution, signing: Signing)
    ensures var r := Resolve(db, id, shown, resolution, signing); r.Committed? ==> OpenKept(db, r.db)
  {
    ResolveShape(db, id, shown, resolution, signing);
  }

  lemma OtherStepKeepsRecords(d: Device, step: Step)
    requires !step.DoPullPage?
    ensures OpenKept(d.db, Next(d, step).db)
  {
    var db := d.db;
    if step.DoEdit? {
      EditKeepsRecords(db, step.edit);
    } else if step.DoMark? {
      if step.op in d.inFlight && step.op < |db.ops| {
        MarkKeepsRecords(db, step.op, Interpret(db, step.op, step.answer), step.now);
      }
    } else if step.DoDiscard? {
      DiscardFrame(db, step.op, step.now);
    } else if step.DoResolve? {
      ResolveKeepsRecords(db, step.id, step.shown, step.resolution, step.signing);
    }
  }

  lemma ChangeKeepsRecords(db: Db, change: Change, now: Time)
    ensures RecordsKept(db, ApplyChange(db, change, now))
  {
    if change.TxUpsert? || change.TxDelete? { ApplyToTxFrame(db, change.key, change); }
  }

  lemma {:induction false} ChangesKeepRecords(db: Db, changes: seq<Change>, now: Time)
    ensures RecordsKept(db, ApplyChanges(db, changes, now))
    decreases |changes|
  {
    if changes != [] {
      ChangeKeepsRecords(db, changes[0], now);
      ChangesKeepRecords(ApplyChange(db, changes[0], now), changes[1..], now);
    }
  }

  lemma StepKeepsRecords(d: Device, step: Step)
    ensures RecordsKept(d.db, Next(d, step).db)
  {
    if !step.DoPullPage? {
      OtherStepKeepsRecords(d, step);
    } else if d.pull.Some? {
      var page := PullPage(d.log, d.pull.value, step.limit);
      ChangesKeepRecords(d.db, Changes(d.log[page.start..page.end]), step.now);
    }
  }

  lemma StepRefreshes(d: Device, step: Step, c: nat, key: Key)
    requires Booked(d.db) && Open(d.db.conflicts, c, key) && Open(Next(d, step).db.conflicts, c, key)
    ensures var record := d.db.conflicts[c];
      Next(d, step).db.conflicts[c] == record.(server := FollowedAll(record.server, PulledBy(d, step, key), key))
  {
    if !step.DoPullPage? {
      OtherStepKeepsRecords(d, step);
    } else if d.pull.Some? {
      var page := PullPage(d.log, d.pull.value, step.limit);
      var entries := d.log[page.start..page.end];
      if QuarantinedKey(d.db.ops, key) {
        ChangesFreeze(d.db, Changes(entries), step.now, key);
      } else {
        PageRefreshes(d.db, entries, step.now, c, key);
      }
    }
  }

  /** The server side of a record that stays open is, after any run, what the pulled log rows of its
      transaction make of it, and nothing else of the record changes. */
  lemma {:induction false} RecordFollowsPulls(before: seq<Step>, steps: seq<Step>, c: nat, key: Key)
    requires Open(Run(NEW_DEVICE, before).db.conflicts, c, key)
    requires Open(Run(Run(NEW_DEVICE, before), steps).db.conflicts, c, key)
    ensures var d := Run(NEW_DEVICE, before);
      var record := d.db.conflicts[c];
      Run(d, steps).db.conflicts[c] == record.(server := FollowedAll(record.server, Pulled(d, steps, key), key))
    decreases |steps|
  {
    if steps != [] {
      var d, cut, step := Run(NEW_DEVICE, before), steps[..|steps| - 1], steps[|steps| - 1];
      var mid := Run(d, cut);
      RunAppend(NEW_DEVICE, before, cut);
      RecordsOnlyGrow(d, cut);
      StepKeepsRecords(mid, step);
      RecordFollowsPulls(before, cut, c, key);
      RunsAreBooked(before + cut);
      StepRefreshes(mid, step, c, key);
      FollowedSplit(d.db.conflicts[c].server, Pulled(d, cut, key), PulledBy(mid, step, key), key);
    }
  }

  lemma {:induction false} RecordsOnlyGrow(d: Device, steps: seq<Step>)
    ensures RecordsKept(d.db, Run(d, steps).db)
    decreases |steps|
  {
    if steps != [] {
      RecordsOnlyGrow(d, steps[..|steps| - 1]);
      StepKeepsRecords(Run(d, steps[..|steps| - 1]), steps[|steps| - 1]);
    }
  }

  // ----- end to end -----

  /** A sent edit is answered with a revision conflict, anything runs, and then the user chooses the
      server's version: the transaction is what the answer said of the server, moved on by every log
      row of it that was pulled since. */
  lemma ServerChoiceFollowsPulls(before: seq<Step>, i: OpId, base: int, current: int, local: ApiSnapshot,
      server: ApiSnapshot, message: string, now: Time, after: seq<Step>, shown: ConflictRow, signing: Signing)
    requires var d := Run(NEW_DEVICE, before);
      && i in d.inFlight && i < |d.db.ops| && d.db.ops[i].OnTransaction() && d.db.ops[i].key in d.db.txs
      && base >= 0 && current >= 1
      && var asked := Next(d, DoMark(i, RevisionConflict(base, current, local, server, message), now));
      Resolve(Run(asked, after).db, |d.db.conflicts|, shown, UseServer, signing).Committed?
    ensures var d := Run(NEW_DEVICE, before);
      var asked := Next(d, DoMark(i, RevisionConflict(base, current, local, server, message), now));
      var key := d.db.ops[i].key;
      var next := Resolve(Run(asked, after).db, |d.db.conflicts|, shown, UseServer, signing).db;
      && |asked.db.conflicts| == |d.db.conflicts| + 1
      && var said := asked.db.conflicts[|d.db.conflicts|].server;
      && said.row.revision == current && said.row.sale == server.sale
      && HoldsLines(said.items, key, current, server.lines)
      && key in next.txs
      && Hydrate(next, key) == WithSync(FollowedAll(said, Pulled(asked, after, key), key), SyncSynced)
  {
    var d := Run(NEW_DEVICE, before);
    var step := DoMark(i, RevisionConflict(base, current, local, server, message), now);
    var asked, key, c := Next(d, step), d.db.ops[i].key, |d.db.conflicts|;
    ConflictIsRecorded(d, i, base, current, local, server, message, now);
    assert (before + [step])[..|before|] == before;
    RunAppend(NEW_DEVICE, before + [step], after);
    RecordsOnlyGrow(asked, after);
    ShownIsOpen(Run(asked, after).db, c, shown, signing);
    RecordFollowsPulls(before + [step], after, c, key);
    ServerChoiceResult(before + [step] + after, c, shown, signing);
  }

  lemma ShownIsOpen(db: Db, id: nat, shown: ConflictRow, signing: Signing)
    requires Resolve(db, id, shown, UseServer, signing).Committed?
    ensures Open(db.conflicts, id, shown.key) && db.conflicts[id] == shown
  {
  }


  // ----- which resolutions are let through -----

  /** The operation is the first edit of the key in conflict. */
  predicate FirstInConflict(ops: seq<Op>, i: int, key: Key) {
    && 0 <= i < |ops| && IsConflictEdit(ops[i], key)
    && forall j :: 0 <= j < i ==> !IsConflictEdit(ops[j], key)
  }

  predicate IsConflictEdit(op: Op, key: Key) { op.key == key && op.OnTransaction() && op.state == Conflict }

  lemma {:induction false} SourceIsFirst(ops: seq<Op>, key: Key, from: nat)
    requires from <= |ops| && forall j :: 0 <= j < from ==> !IsConflictEdit(ops[j], key)
    requires !QuarantinedKey(ops, key)
    ensures var found := ConflictSource(ops, key, from);
      if found.Some? then FirstInConflict(ops, found.value, key) else forall i :: !FirstInConflict(ops, i, key)
    decreases |ops| - from
  {
    if from < |ops| && !IsConflictEdit(ops[from], key) { SourceIsFirst(ops, key, from + 1); }
  }

  /** Exactly which resolutions are let through: by the origin actor or a superadmin, of the open record
      as it was shown, while nothing of the transaction is quarantined. A retry is also refused in a
      Sandbox without the current policy, for a transaction the server has archived, for anything but a
      correction, and where an older local revision stands in its place. */
  lemma ResolutionAllowed(db: Db, id: nat, shown: ConflictRow, resolution: Resolution, signing: Signing)
    ensures Resolve(db, id, shown, resolution, signing).Committed? <==>
      var session, key, next := signing.session, shown.key, shown.server.row.revision + 1;
      && (session.superadmin || session.actor == shown.server.row.originActor)
      && !QuarantinedKey(db.ops, key)
      && id < |db.conflicts| && db.conflicts[id] == shown && shown.resolution.None?
      && exists i :: FirstInConflict(db.ops, i, key) && (resolution == RetryLocal ==>
            && (session.sandbox ==> session.current)
            && shown.server.row.deletedAt.None?
            && db.ops[i].signed.action == Correct
            && ((key, next) in db.revs ==> next >= shown.local.row.revision))
  {
    if !QuarantinedKey(db.ops, shown.key) {
      SourceIsFirst(db.ops, shown.key, 0);
      var found := ConflictSource(db.ops, shown.key, 0);
      assert found.Some? ==> FirstInConflict(db.ops, found.value, shown.key);
    }
  }
}
