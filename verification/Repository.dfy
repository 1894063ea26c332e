/** What each exported step of the local repository does to the tables, as a function of
    the tables before it. A step that throws inside its transaction is `RolledBack`. */
module Repository {
  import opened LocalTables

  datatype Outcome = Committed(db: Db) | RolledBack

  /** The signed-in user and terminal; `current` means the Sandbox session follows the full-amount policy. */
  datatype Session = Session(
    actor: Actor, name: string, superadmin: bool, sandbox: bool, current: bool, id: string, terminal: string)

  /** What every new signed operation carries besides its own fields. */
  datatype Signing = Signing(now: Time, payload: string, signature: string, session: Session)

  const PAYMENT_CONFLICT_PREFIX := "PAYMENT_STATE_CONFLICT: "
  const CASCADE_REJECTED := "Operasi lanjutan " + "dibatalkan karena operasi sebelumnya ditolak: "
  const CASCADE_CONFLICT := "Operasi lanjutan dibatalkan karena koreksi sebelumnya berkonflik."
  const RETRY_DELAY: Time := 30_000
  const SANDBOX_QRIS_AMOUNT := 1_000

  predicate MayCorrect(session: Session, row: Txn) {
    session.superadmin || session.actor == row.originActor
  }

  predicate SandboxOutdated(session: Session) { session.sandbox && !session.current }

  function PaymentAmount(session: Session, payment: PaymentMethod, total: int): int {
    if session.sandbox && payment == Qris && !session.current then SANDBOX_QRIS_AMOUNT else total
  }

  // ----- local edits -----

  function Sign(action: Action, base: Option<int>, signing: Signing): Signed {
    Signed(action, base, signing.session.id, signing.session.actor, signing.session.terminal, signing.now,
      signing.payload)
  }

  function CreateTx(db: Db, key: Key, lines: seq<Line>, payment: PaymentMethod, hash: Option<string>,
                    receipt: Option<string>, signing: Signing): Outcome
  {
    var session := signing.session;
    var selected := Selected(lines);
    if SandboxOutdated(session) || LinesRefused(selected, payment) then RolledBack
    else if key in db.txs || (key, 1) in db.revs then RolledBack
    else
      var total := LinesTotal(selected);
      var row := Txn(1, Sale(signing.now, total, PaymentAmount(session, payment, total), payment, hash), session.actor,
                     session.name, session.terminal, SyncPending, PrintPending, PaymentSuccess, Some(1), None, receipt);
      var added := LocalItems(|db.ops|, selected);
      var after := Snapshot(row, added);
      Committed(db.(
        txs := db.txs[key := row],
        items := db.items[(key, 1) := ItemsAt(db.items, key, 1) + added],
        revs := db.revs[(key, 1) := Revision(None, after)],
        ops := db.ops + [NewOp(db, Sign(Create, None, signing), signing.signature, key)]))
  }

  predicate EditBlocked(db: Db, key: Key) {
    || QuarantinedKey(db.ops, key)
    || key !in db.txs
    || db.txs[key].deletedAt.Some?
    || db.txs[key].syncState == SyncConflict
    || TerminalBlock(db.ops, key)
  }

  /** The row after a correction: confirmed at once for its new revision, and due for a reprint if it was printed. */
  function CorrectedRow(row: Txn, total: int, payment: PaymentMethod, hash: Option<string>, session: Session): Txn {
    row.(
      revision := row.revision + 1,
      sale := row.sale.(total := total, paymentAmount := PaymentAmount(session, payment, total), payment := payment,
        qrisHash := hash),
      updatedBy := session.name,
      terminal := session.terminal,
      syncState := SyncPending,
      printState := if row.printState == PrintSuccess then NeedsReprint else row.printState,
      paymentStatus := PaymentSuccess,
      confirmedRevision := Some(row.revision + 1))
  }

  /** The lines with a positive quantity. */
  function Selected(lines: seq<Line>): (selected: seq<Line>)
    ensures forall i :: 0 <= i < |selected| ==> selected[i].quantity > 0
  {
    if lines == [] then []
    else (if lines[0].quantity > 0 then [lines[0]] else []) + Selected(lines[1..])
  }

  predicate LinesRefused(lines: seq<Line>, payment: PaymentMethod) {
    payment == Legacy || lines == [] || exists i :: 0 <= i < |lines| && !(1 <= lines[i].quantity <= 999)
  }

  function CorrectTx(db: Db, key: Key, lines: seq<Line>, payment: PaymentMethod, hash: Option<string>,
      signing: Signing): Outcome {
    var session := signing.session;
    var selected := Selected(lines);
    if EditBlocked(db, key) || SandboxOutdated(session) || !MayCorrect(session, db.txs[key])
      || LinesRefused(selected, payment) then
      RolledBack
    else
      var before := Hydrate(db, key);
      var row := CorrectedRow(before.row, LinesTotal(selected), payment, hash, session);
      if (key, row.revision) in db.revs then RolledBack
      else Committed(WriteCorrection(db, key, before, row, selected, signing))
  }

  function WriteCorrection(db: Db, key: Key, before: Snapshot, row: Txn, lines: seq<Line>, signing: Signing): Db {
    var added := LocalItems(|db.ops|, lines);
    db.(
      txs := db.txs[key := row],
      items := db.items[(key, row.revision) := ItemsAt(db.items, key, row.revision) + added],
      revs := db.revs[(key, row.revision) := Revision(Some(before), Snapshot(row, added))],
      ops := db.ops + [NewOp(db, Sign(Correct, Some(before.row.revision), signing), signing.signature, key)])
  }

  /** The row after a payment decision, which confirms the current revision or none. */
  function DecidedRow(row: Txn, status: PaymentStatus, session: Session): Txn {
    row.(
      updatedBy := session.name,
      terminal := session.terminal,
      syncState := SyncPending,
      paymentStatus := status,
      confirmedRevision := if status == PaymentSuccess then Some(row.revision) else None)
  }

  function SetPaymentTx(db: Db, key: Key, status: PaymentStatus, signing: Signing): Outcome
  {
    var session := signing.session;
    if EditBlocked(db, key) || !MayCorrect(session, db.txs[key]) || status == PaymentPending then RolledBack
    else
      var before := Hydrate(db, key);
      var confirmed := before.row.paymentStatus == PaymentSuccess
        && before.row.confirmedRevision == Some(before.row.revision);
      if confirmed then (if status == PaymentSuccess then Committed(db) else RolledBack)
      else if before.row.paymentStatus == status && status == PaymentFailed then Committed(db)
      else
        var row := DecidedRow(before.row, status, session);
        Committed(db.(
          txs := db.txs[key := row],
          audits := db.audits + [PaymentChanged(key, signing.now, before, before.(row := row))],
          ops := db.ops + [NewOp(db, Sign(SetPayment, Some(before.row.revision), signing), signing.signature, key)]))
  }

  function BeginPrint(db: Db, key: Key, revision: int): Outcome {
    if key !in db.txs || db.txs[key].deletedAt.Some? || db.txs[key].syncState == SyncConflict then RolledBack
    else if TerminalBlock(db.ops, key) || db.txs[key].revision != revision then RolledBack
    else if db.txs[key].paymentStatus != PaymentSuccess || db.txs[key].confirmedRevision != Some(revision)
      then RolledBack
    else if QuarantinedKey(db.ops, key) then RolledBack
    else Committed(db.(prints := db.prints + [Attempt(key, revision, AttemptPending)]))
  }

  function CompletePrint(db: Db, attempt: nat, key: Key, result: PrintState, signing: Signing): Outcome {
    if attempt >= |db.prints| || db.prints[attempt].key != key || db.prints[attempt].revision < 1 then RolledBack
    else
      var revision := db.prints[attempt].revision;
      Committed(db.(
        prints := db.prints[attempt := db.prints[attempt].(result := AttemptDone(result))],
        txs := if key in db.txs && db.txs[key].revision == revision then SetPrint(db.txs, key, result) else db.txs,
        ops := db.ops + [NewOp(db, Sign(PrintAttempt(attempt), None, signing), signing.signature, key)]))
  }

  /** The local edits: each is one atomic step (its checks and its transaction together). */
  datatype Edit =
    | EditCreate(key: Key, lines: seq<Line>, payment: PaymentMethod, hash: Option<string>, receipt: Option<string>,
      signing: Signing)
    | EditCorrect(key: Key, lines: seq<Line>, payment: PaymentMethod, hash: Option<string>, signing: Signing)
    | EditPayment(key: Key, status: PaymentStatus, signing: Signing)
    | EditBeginPrint(key: Key, revision: int)
    | EditCompletePrint(attempt: nat, key: Key, result: PrintState, signing: Signing)

  function ApplyEdit(db: Db, edit: Edit): Outcome {
    match edit
    case EditCreate(key, lines, payment, hash, receipt, signing) =>
      CreateTx(db, key, lines, payment, hash, receipt, signing)
    case EditCorrect(key, lines, payment, hash, signing) => CorrectTx(db, key, lines, payment, hash, signing)
    case EditPayment(key, status, signing) => SetPaymentTx(db, key, status, signing)
    case EditBeginPrint(key, revision) => BeginPrint(db, key, revision)
    case EditCompletePrint(attempt, key, result, signing) => CompletePrint(db, attempt, key, result, signing)
  }

  // ----- pushing the outbox -----

  /** The WHERE clause of getOutboxOperations. */
  predicate Sendable(ops: seq<Op>, i: OpId, now: Time)
    requires i < |ops|
  {
    && ops[i].Unsent()
    && ops[i].quarantine.None?
    && (ops[i].nextAttempt.None? || ops[i].nextAttempt.value <= now)
    && !(exists h :: 0 <= h < i && ops[h].key == ops[i].key && Blocks(ops[h]))
  }

  /** The rows of getOutboxOperations from row `from` on, in queue order. */
  function Batch(ops: seq<Op>, from: nat, now: Time, limit: nat): (batch: seq<OpId>)
    requires from <= |ops|
    ensures |batch| <= limit
    ensures forall x :: 0 <= x < |batch| ==> from <= batch[x] < |ops| && Sendable(ops, batch[x], now)
    ensures forall x, y :: 0 <= x < y < |batch| ==> batch[x] < batch[y]
    ensures forall i :: from <= i < |ops| && Sendable(ops, i, now) && i !in batch ==>
      |batch| == limit && forall b :: b in batch ==> b < i
    decreases |ops| - from
  {
    if from == |ops| || limit == 0 then []
    else if Sendable(ops, from, now) then [from] + Batch(ops, from + 1, now, limit - 1)
    else Batch(ops, from + 1, now, limit)
  }

  datatype MarkResult =
    | MarkSuccess
    | MarkError(message: string)
    | MarkRejected(message: string)
    | MarkPaymentConflict(message: string, status: PaymentStatus, confirmed: Option<int>, authoritative: Snapshot)
    | MarkConflict(local: Snapshot, server: Snapshot)

  /** Evidence that a payment succeeded or a receipt was printed. */
  predicate Protected(db: Db, key: Key) {
    && key in db.txs
    && (|| db.txs[key].paymentStatus == PaymentSuccess
        || (exists p :: 0 <= p < |db.prints| && db.prints[p].key == key)
        || (exists a :: 0 <= a < |db.audits| && db.audits[a].PaymentChanged? && db.audits[a].key == key
              && db.audits[a].after.row.paymentStatus == PaymentSuccess
              && db.audits[a].after.row.confirmedRevision == Some(db.audits[a].after.row.revision)))
  }

  /** shouldPreserveRejectedCreateEvidence. */
  predicate PreservesEvidence(db: Db, i: OpId)
    requires i < |db.ops|
  {
    var op := db.ops[i];
    && op.OnTransaction()
    && (op.signed.action == Create
        || exists h ::
             0 <= h < i && db.ops[h].key == op.key && db.ops[h].signed.action == Create && db.ops[h].state == Rejected)
    && Protected(db, op.key)
  }

  /** The server's snapshot as a payment conflict stores it. */
  function Authoritative(given: Snapshot, status: PaymentStatus, confirmed: Option<int>): Snapshot {
    given.(row := given.row.(syncState := SyncError, paymentStatus := status, confirmedRevision := confirmed))
  }

  /** markOutboxResult for a row that exists. */
  function Mark(db: Db, i: OpId, result: MarkResult, now: Time): Db
    requires i < |db.ops|
  {
    var op := db.ops[i];
    var key := op.key;
    match result
    case MarkSuccess =>
      var ops := db.ops[i := op.(state := Synced, lastError := None)];
      db.(ops := ops, txs := SetSync(db.txs, key, if HasUnsettled(ops, key) then SyncPending else SyncSynced))
    case MarkError(message) =>
      var failed := op.(state := Error, attempts := op.attempts + 1, lastError := Some(message),
        nextAttempt := Some(now + RETRY_DELAY));
      db.(ops := db.ops[i := failed], txs := SetSync(db.txs, key, SyncError))
    case MarkConflict(local, server) =>
      db.(ops := Cascade(db.ops[i := op.(state := Conflict, lastError := Some("REVISION_CONFLICT"))], key, i,
        CASCADE_CONFLICT),
          txs := Unconfirm(db.txs, key, SyncConflict),
          conflicts := db.conflicts + [ConflictRow(key, local, server, None)])
    case MarkRejected(message) =>
      db.(ops := Cascade(db.ops[i := Reject(op, message)], key, i, CASCADE_REJECTED + message),
          txs := if op.OnTransaction() && !PreservesEvidence(db, i) then Unconfirm(db.txs, key, SyncError)
                 else SetSync(db.txs, key, SyncError))
    case MarkPaymentConflict(message, status, confirmed, given) =>
      var authoritative := Authoritative(given, status, confirmed);
      Replace(db, key, authoritative).(
        ops := Cascade(db.ops[i := Reject(op, PAYMENT_CONFLICT_PREFIX + message)], key, i, CASCADE_REJECTED + message),
        audits := db.audits + [PaymentConflictKept(key, i, authoritative)])
  }

  // ----- what the engine makes of a server answer -----

  datatype ApiSnapshot = ApiSnapshot(sale: Sale, status: PaymentStatus, confirmed: Option<int>,
      receipt: Option<string>, lines: seq<Line>)

  datatype Answer =
    | NoAnswer
    | Applied
    | RevisionConflict(baseRevision: int, currentRevision: int, local: ApiSnapshot, server: ApiSnapshot,
      message: string)
    | PaymentConflict(currentRevision: int, status: PaymentStatus, confirmed: Option<int>, server: ApiSnapshot,
      message: string)
    | OtherConflict(message: string)
    | Refusal(message: string)
    | OtherStatus(message: string)

  const NO_RESULT := "Server tidak mengembalikan hasil operasi."
  const UNMAPPED_PAYMENT := "Konflik pembayaran tidak dapat dipetakan ke transaksi lokal."

  function MergeSnapshot(key: Key, base: Snapshot, api: ApiSnapshot, revision: int): Snapshot {
    Snapshot(base.row.(revision := revision, sale := api.sale, syncState := SyncConflict, paymentStatus := api.status,
                       confirmedRevision := api.confirmed,
                       receiptIdentity := if api.receipt.Some? then api.receipt else base.row.receiptIdentity),
             MergedItems(key, revision, api.lines))
  }

  /** The branch of the push loop: how one answer to operation `i` is recorded. */
  function Interpret(db: Db, i: OpId, answer: Answer): MarkResult
    requires i < |db.ops|
  {
    var key := db.ops[i].key;
    var known := db.ops[i].OnTransaction() && key in db.txs;
    match answer
    case NoAnswer => MarkError(NO_RESULT)
    case Applied => MarkSuccess
    case RevisionConflict(base, current, local, server, message) =>
      if base < 0 || current < 1 then MarkRejected(message)
      else if !known then MarkRejected(message)
      else
        var mine := MergeSnapshot(key, Hydrate(db, key), local, base + 1);
        MarkConflict(mine, MergeSnapshot(key, mine, server, current))
    case PaymentConflict(current, status, confirmed, server, message) =>
      if current < 1 || (if status == PaymentSuccess then confirmed.None? || confirmed.value < 1 else confirmed.Some?)
        then MarkRejected(message)
      else if !known then MarkRejected(UNMAPPED_PAYMENT)
      else MarkPaymentConflict(message, status, confirmed, MergeSnapshot(key, Hydrate(db, key), server, current))
    case OtherConflict(message) => MarkRejected(message)
    case Refusal(message) => MarkRejected(message)
    case OtherStatus(message) => MarkError(message)
  }

  // ----- discarding a rejected operation -----

  predicate RejectedEdit(op: Op, key: Key) {
    op.key == key && op.OnTransaction() && op.state == Rejected && op.lastError.Some?
  }

  /** Rejected transaction operations of the key with an error, among the first `n` rows. */
  function RejectedRows(ops: seq<Op>, key: Key, n: nat): (rows: seq<OpId>)
    requires n <= |ops|
    ensures forall x :: 0 <= x < |rows| ==> rows[x] < n && RejectedEdit(ops[rows[x]], key)
    ensures forall r :: 0 <= r < n && RejectedEdit(ops[r], key) ==> r in rows
    ensures forall x, y :: 0 <= x < y < |rows| ==> rows[x] < rows[y]
  {
    if n == 0 then []
    else
      var rest := RejectedRows(ops, key, n - 1);
      if RejectedEdit(ops[n - 1], key) then rest + [n - 1] else rest
  }

  predicate HasPaymentPrefix(message: string) {
    PAYMENT_CONFLICT_PREFIX <= message
  }

  predicate MarksPaymentConflict(op: Op) {
    op.lastError.Some? && HasPaymentPrefix(op.lastError.value)
  }

  /** The first row whose stored error starts with the payment-conflict prefix. */
  function FirstPaymentConflict(ops: seq<Op>, rows: seq<OpId>): (r: Option<OpId>)
    requires forall x :: 0 <= x < |rows| ==> rows[x] < |ops|
    ensures r.Some? ==> r.value < |ops| && r.value in rows && MarksPaymentConflict(ops[r.value])
    ensures r.None? <==> forall x :: 0 <= x < |rows| ==> !MarksPaymentConflict(ops[rows[x]])
  {
    if rows == [] then None
    else if MarksPaymentConflict(ops[rows[0]]) then Some(rows[0])
    else FirstPaymentConflict(ops, rows[1..])
  }

  function LastConflictAudit(audits: seq<Audit>, key: Key, op: OpId): Option<Snapshot> {
    if audits == [] then None
    else
      var last := audits[|audits| - 1];
      if last.PaymentConflictKept? && last.key == key && last.op == op then Some(last.authoritative)
      else LastConflictAudit(audits[..|audits| - 1], key, op)
  }

  function LastPaymentAudit(audits: seq<Audit>, key: Key, at: Time): Option<Snapshot> {
    if audits == [] then None
    else
      var last := audits[|audits| - 1];
      if last.PaymentChanged? && last.key == key && last.at == at then Some(last.before)
      else LastPaymentAudit(audits[..|audits| - 1], key, at)
  }

  function MinRevision(a: Option<int>, b: Option<int>): Option<int> {
    if a.None? then b else if b.None? then a else if a.value <= b.value then a else b
  }

  function CorrectedRevision(op: Op): Option<int> {
    if op.signed.action == Correct && op.signed.baseRevision.Some? then Some(op.signed.baseRevision.value + 1) else None
  }

  /** firstCorrectionRevision. */
  function FirstCorrection(ops: seq<Op>, rows: seq<OpId>): Option<int>
    requires forall x :: 0 <= x < |rows| ==> rows[x] < |ops|
  {
    if rows == [] then None else MinRevision(CorrectedRevision(ops[rows[0]]), FirstCorrection(ops, rows[1..]))
  }

  datatype Restoration = Restored(db: Db, revision: int) | NoSnapshot

  /** The snapshot stored before the edit signed as `op`. */
  function StoredBefore(db: Db, key: Key, op: Op): Option<Snapshot> {
    if op.signed.action == Correct then
      if op.signed.baseRevision.None? then None
      else
        var at := (key, op.signed.baseRevision.value + 1);
        if at in db.revs then db.revs[at].before else None
    else if op.signed.action == SetPayment then LastPaymentAudit(db.audits, key, op.signed.occurredAt)
    else None
  }

  /** Undoes the edits of the first `n` rows, newest first. */
  function RestoreRows(db: Db, key: Key, ops: seq<Op>, rows: seq<OpId>, n: nat): Restoration
    requires 0 < n <= |rows|
    requires forall x :: 0 <= x < |rows| ==> rows[x] < |ops|
    decreases n
  {
    var before := StoredBefore(db, key, ops[rows[n - 1]]);
    if before.None? then NoSnapshot
    else
      var restored := Replace(db, key, WithSync(before.value, SyncSynced));
      if n == 1 then Restored(restored, before.value.row.revision) else RestoreRows(restored, key, ops, rows, n - 1)
  }

  /** A rejected create is archived, unless a payment or a print already proves it. */
  function RecoverCreate(db: Db, key: Key, now: Time): Outcome {
    if Protected(db, key) then RolledBack
    else if key !in db.txs then Committed(db)
    else
      var deleted := if db.txs[key].deletedAt.Some? then db.txs[key].deletedAt else Some(now);
      Committed(db.(txs := Unconfirm(db.txs[key := db.txs[key].(deletedAt := deleted)], key, SyncError)))
  }

  /** Drops the items and revisions of the corrections among the rows. */
  function DropCorrections(db: Db, key: Key, rows: seq<OpId>): Db
    requires forall x :: 0 <= x < |rows| ==> rows[x] < |db.ops|
  {
    var first := FirstCorrection(db.ops, rows);
    if first.Some? then DropFrom(db, key, first.value) else db
  }

  /** A payment conflict recovers the server's snapshot that was stored with it. */
  function RecoverAuthoritative(db: Db, key: Key, rows: seq<OpId>, conflict: OpId): Outcome
    requires forall x :: 0 <= x < |rows| ==> rows[x] < |db.ops|
  {
    var authoritative := LastConflictAudit(db.audits, key, conflict);
    if authoritative.None? then RolledBack
    else
      var replaced := Replace(DropCorrections(db, key, rows), key, WithSync(authoritative.value, SyncSynced));
      Committed(DropFrom(replaced, key, authoritative.value.row.revision + 1))
  }

  function RecoverEdits(db: Db, key: Key, rows: seq<OpId>): Outcome
    requires rows != []
    requires forall x :: 0 <= x < |rows| ==> rows[x] < |db.ops|
  {
    match RestoreRows(db, key, db.ops, rows, |rows|)
    case NoSnapshot => RolledBack
    case Restored(restored, revision) => Committed(DropFrom(restored, key, revision + 1))
  }

  /** How discarding recovers the transaction's row, items and revisions. */
  function Recover(db: Db, key: Key, rows: seq<OpId>, now: Time): Outcome
    requires rows != []
    requires forall x :: 0 <= x < |rows| ==> rows[x] < |db.ops|
  {
    if exists x :: 0 <= x < |rows| && db.ops[rows[x]].signed.action == Create then RecoverCreate(db, key, now)
    else
      var conflict := FirstPaymentConflict(db.ops, rows);
      if conflict.Some? then RecoverAuthoritative(db, key, rows, conflict.value) else RecoverEdits(db, key, rows)
  }

  /** discardRejectedOutboxOperationLocal. */
  function Discard(db: Db, i: OpId, now: Time): Outcome {
    if i >= |db.ops| || db.ops[i].quarantine.Some? || db.ops[i].state != Rejected then Committed(db)
    else
      var key := db.ops[i].key;
      if HasState(db.ops, key, Conflict) || QuarantinedKey(db.ops, key) then RolledBack
      else if db.ops[i].OnTransaction() then
        var found := RejectedRows(db.ops, key, |db.ops|);
        match Recover(db, key, if found == [] then [i] else found, now)
        case RolledBack => RolledBack
        case Committed(recovered) => Committed(recovered.(ops := ResolveTerminal(recovered.ops, key)))
      else
        var ops := db.ops[i := Settle(db.ops[i], Discarded)];
        Committed(db.(ops := ops, txs := SetSync(db.txs, key, Recomputed(ops, key))))
  }

  // ----- resolving a revision conflict -----

  /** The conflict operation that a resolution settles: the first of the key, not quarantined. */
  function ConflictSource(ops: seq<Op>, key: Key, from: nat): (r: Option<OpId>)
    requires from <= |ops|
    ensures r.Some? ==> from <= r.value < |ops| && ops[r.value].key == key && ops[r.value].OnTransaction()
                        && ops[r.value].state == Conflict && ops[r.value].quarantine.None?
    ensures r.None?
      ==> forall j :: from <= j < |ops| && ops[j].key == key && ops[j].OnTransaction() && ops[j].state == Conflict ==>
      ops[j].quarantine.Some?
    decreases |ops| - from
  {
    if from == |ops| then None
    else if ops[from].key == key && ops[from].OnTransaction() && ops[from].state == Conflict
      && ops[from].quarantine.None? then Some(from)
    else ConflictSource(ops, key, from + 1)
  }

  /** The record that a retry writes: the local snapshot moved on top of the server's revision. */
  function Rebased(local: Snapshot, server: Snapshot, session: Session): Snapshot {
    Snapshot(local.row.(
      sale := local.row.sale.(paymentAmount := PaymentAmount(session, local.row.sale.payment, local.row.sale.total)),
      receiptIdentity := server.row.receiptIdentity,
      updatedBy := session.name,
      revision := server.row.revision + 1,
      syncState := SyncPending,
      paymentStatus := PaymentPending,
      confirmedRevision := None), local.items)
  }

  function CloseConflict(db: Db, source: OpId, key: Key, id: nat, resolution: Resolution): Db
    requires source < |db.ops| && id < |db.conflicts|
  {
    db.(ops := ResolveRejected(db.ops[source := Settle(db.ops[source], Resolved)], key),
        conflicts := db.conflicts[id := db.conflicts[id].(resolution := Some(resolution))])
  }

  /** resolveConflictLocal, for the conflict record `id` as the screen showed it. */
  function Resolve(db: Db, id: nat, shown: ConflictRow, resolution: Resolution, signing: Signing): Outcome {
    var key, local, server, session := shown.key, shown.local, shown.server, signing.session;
    if resolution == RetryLocal && SandboxOutdated(session) then RolledBack
    else if !MayCorrect(session, server.row) || QuarantinedKey(db.ops, key) then RolledBack
    else
      var found := ConflictSource(db.ops, key, 0);
      if found.None? then RolledBack
      else if id >= |db.conflicts| || shown.resolution.Some? || db.conflicts[id] != shown then RolledBack
      else
        var source := found.value;
        var dropped := DropFrom(db, key, local.row.revision);
        match resolution
        case UseServer =>
          Committed(CloseConflict(Replace(dropped, key, WithSync(server, SyncSynced)), source, key, id, resolution))
        case RetryLocal =>
          if server.row.deletedAt.Some? || db.ops[source].signed.action != Correct then RolledBack
          else
            var rebased := Rebased(local, server, session);
            var at := (key, rebased.row.revision);
            if at in dropped.revs then RolledBack
            else
              var replaced := Replace(dropped, key, rebased);
              var signed := Sign(Correct, Some(server.row.revision),
                signing.(payload := db.ops[source].signed.payload));
              var inserted := replaced.(
                revs := replaced.revs[at := Revision(Some(WithSync(server, SyncSynced)), rebased)],
                ops := replaced.ops + [NewOp(db, signed, signing.signature, key)]);
              Committed(CloseConflict(inserted, source, key, id, resolution))
  }

  // ----- pulling server changes -----

  datatype Change =
    | PackageUpsert(id: string, package: Package)
    | PackageDelete(id: string)
    | TxUpsert(key: Key, snapshot: Snapshot)
    | TxDelete(key: Key, at: Time)
    | PrintUpsert(id: string, payload: string, of: Option<(Key, PrintState)>)
    | OtherChange(aggregate: string, id: string, body: Option<string>)

  function UpsertPackage(packages: map<string, Package>, id: string, package: Package): map<string, Package> {
    if id in packages && package.revision < packages[id].revision then packages else packages[id := package]
  }

  function DeletePackage(packages: map<string, Package>, id: string, now: Time): map<string, Package> {
    if id in packages then
      var package := packages[id];
      var deletedAt := if package.deletedAt.Some? then package.deletedAt else Some(now);
      packages[id := package.(active := false, deletedAt := deletedAt)]
    else packages
  }

  /** The newest unresolved conflict record of the key among the first `n`. */
  function OpenConflict(conflicts: seq<ConflictRow>, key: Key, n: nat): (r: Option<nat>)
    requires n <= |conflicts|
    ensures r.Some? ==> r.value < n && conflicts[r.value].key == key && conflicts[r.value].resolution.None?
    ensures r.None? ==> forall c :: 0 <= c < n && conflicts[c].key == key ==> conflicts[c].resolution.Some?
  {
    if n == 0 then None
    else if conflicts[n - 1].key == key && conflicts[n - 1].resolution.None? then Some(n - 1)
    else OpenConflict(conflicts, key, n - 1)
  }

  function RefreshConflicts(conflicts: seq<ConflictRow>, key: Key, server: Snapshot): seq<ConflictRow> {
    seq(|conflicts|, c requires 0 <= c < |conflicts| =>
      if conflicts[c].key == key && conflicts[c].resolution.None? then conflicts[c].(server := server)
        else conflicts[c])
  }

  /** MIN(base_revision + 1) over the terminal corrections of the key among the first `n` rows. */
  function FirstTerminalCorrection(ops: seq<Op>, key: Key, n: nat): Option<int>
    requires n <= |ops|
  {
    if n == 0 then None
    else
      var op := ops[n - 1];
      var own := if op.key == key && op.Terminal() then CorrectedRevision(op) else None;
      MinRevision(FirstTerminalCorrection(ops, key, n - 1), own)
  }

  /** An unresolved conflict record follows the server's newest snapshot. */
  function FollowServer(conflicts: seq<ConflictRow>, key: Key, change: Change): seq<ConflictRow>
    requires change.TxUpsert? || change.TxDelete?
  {
    var open := OpenConflict(conflicts, key, |conflicts|);
    if open.None? then conflicts
    else if change.TxUpsert? then RefreshConflicts(conflicts, key, WithSync(change.snapshot, SyncConflict))
    else
      var last := conflicts[open.value].server;
      RefreshConflicts(conflicts, key, last.(row := last.row.(syncState := SyncConflict, deletedAt := Some(change.at))))
  }

  /** Drops the optimistic revisions of corrections that were refused. */
  function DropRefused(db: Db, key: Key): Db {
    var first := FirstTerminalCorrection(db.ops, key, |db.ops|);
    if first.Some? then DropFrom(db, key, first.value) else db
  }

  function WriteServerTx(db: Db, key: Key, change: Change): Db
    requires change.TxUpsert? || change.TxDelete?
  {
    if change.TxUpsert? then Replace(db, key, WithSync(change.snapshot, SyncSynced))
    else if key in db.txs then
      var row := db.txs[key];
      db.(txs := db.txs[key :=
        row.(deletedAt := if row.deletedAt.Some? then row.deletedAt else Some(change.at), syncState := SyncSynced)])
    else db
  }

  /** What one change does to a transaction that is not quarantined. */
  function ApplyToTx(db: Db, key: Key, change: Change): Db
    requires change.TxUpsert? || change.TxDelete?
  {
    var written := WriteServerTx(DropRefused(db, key), key, change);
    var ops := ResolveTerminal(db.ops, key);
    written.(conflicts := FollowServer(db.conflicts, key, change), ops := ops,
      txs := SetSync(written.txs, key, Recomputed(ops, key)))
  }

  /** One pass of the loop of applyRemoteChanges. */
  function ApplyChange(db: Db, change: Change, now: Time): Db {
    match change
    case PackageUpsert(id, package) => db.(packages := UpsertPackage(db.packages, id, package))
    case PackageDelete(id) => db.(packages := DeletePackage(db.packages, id, now))
    case TxUpsert(key, _) => if QuarantinedKey(db.ops, key) then db else ApplyToTx(db, key, change)
    case TxDelete(key, _) => if QuarantinedKey(db.ops, key) then db else ApplyToTx(db, key, change)
    case PrintUpsert(id, payload, target) =>
      var stored := db.(entities := db.entities[("print_attempt", id) := Some(payload)]);
      if target.Some? && !QuarantinedKey(db.ops, target.value.0) then
        stored.(txs := SetPrint(db.txs, target.value.0, target.value.1))
      else stored
    case OtherChange(aggregate, id, body) => db.(entities := db.entities[(aggregate, id) := body])
  }

  function ApplyChanges(db: Db, changes: seq<Change>, now: Time): Db
    decreases |changes|
  {
    if changes == [] then db else ApplyChanges(ApplyChange(db, changes[0], now), changes[1..], now)
  }

  /** applyRemoteChanges: the page and its cursor are committed together. */
  function ApplyPage(db: Db, changes: seq<Change>, nextCursor: nat, now: Time): Db {
    ApplyChanges(db, changes, now).(cursor := Some(nextCursor))
  }

  // ----- quarantine -----

  predicate FollowsActor(reason: string) {
    "MEMBERSHIP_" <= reason || reason == "ACCOUNT_ACCESS_CHANGED" || reason == "SESSION_INVALID"
  }

  /** quarantineScope. */
  function QuarantineScope(db: Db, actor: Actor, reason: string): Db {
    db.(blocked := Some(Block(reason, if FollowsActor(reason) then Some(actor) else None)),
      ops := QuarantineUnsettled(db.ops, reason))
  }

  datatype Origin = Origin(session: string, actor: Actor, terminal: string)

  function OriginOf(op: Op): Origin {
    Origin(op.signed.originSession, op.signed.originActor, op.signed.terminal)
  }

  predicate Releasable(ops: seq<Op>, rows: set<OpId>, actor: Actor, allowed: set<Origin>, i: OpId)
    requires i < |ops|
  {
    i in rows && OriginOf(ops[i]) in allowed && ops[i].signed.originActor == actor && ops[i].quarantine.Some?
  }

  /** One committed batch of revalidateQuarantinedOperations: `rows` are the operations of
      `actor` that were read at the start, `allowed` the origins the server confirmed. */
  function ReleaseBatch(db: Db, rows: set<OpId>, actor: Actor, allowed: set<Origin>): Db {
    var ops := seq(|db.ops|, i requires 0 <= i < |db.ops| =>
      if Releasable(db.ops, rows, actor, allowed, i) then db.ops[i].(quarantine := None) else db.ops[i]);
    var freesAny := exists i :: 0 <= i < |db.ops| && Releasable(db.ops, rows, actor, allowed, i);
    db.(ops := ops, cursor := if freesAny then None else db.cursor)
  }

  /** markScopeRevalidated: access returns; quarantined evidence stays quarantined. */
  function ScopeRevalidated(db: Db): Db {
    db.(blocked := None)
  }
}
