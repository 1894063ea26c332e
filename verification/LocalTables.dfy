/** The tables of one scoped local database, and the SQL statements the repository
    runs on them, each as its effect on rows.

    Rows that the schema numbers or keys uniquely are named by their position: an outbox
    operation by its row number (queue order), a conflict record and a print attempt by
    the order they were inserted. Rows of `transaction_items` are kept per
    (transaction, revision) as a set, because every reader sorts them by id. */
module LocalTables {

  datatype Option<+T> = None | Some(value: T)

  type Key = string    // transaction id; also the outbox dependency key
  type Actor = string
  type Time = int      // milliseconds
  type OpId = nat      // row number of the operation in the outbox

  datatype PaymentMethod = Cash | Qris | Legacy
  datatype PaymentStatus = PaymentPending | PaymentSuccess | PaymentFailed
  datatype PrintState = PrintPending | PrintSuccess | PrintFailed | PrintUnknown | NeedsReprint
  datatype SyncState = SyncPending | SyncSynced | SyncConflict | SyncError

  datatype Line = Line(packageId: string, packageRevision: int, unitPrice: nat, quantity: int)
  datatype ItemId =
    | LocalItem(op: OpId, index: nat)
    | RemoteItem(id: string)
    | MergedItem(key: Key, revision: int, index: nat)
  datatype Item = Item(id: ItemId, line: Line)

  datatype Sale = Sale(
    occurredAt: Time, total: int, paymentAmount: int, payment: PaymentMethod, qrisHash: Option<string>)

  /** One row of `transactions`: `updatedBy` and `terminal` tell who wrote it last and where. */
  datatype Txn = Txn(
    revision: int,
    sale: Sale,
    originActor: Actor,
    updatedBy: string,
    terminal: string,
    syncState: SyncState,
    printState: PrintState,
    paymentStatus: PaymentStatus,
    confirmedRevision: Option<int>,
    deletedAt: Option<Time>,
    receiptIdentity: Option<string>)

  /** A whole transaction: its row and the items of the row's revision. */
  datatype Snapshot = Snapshot(row: Txn, items: set<Item>)

  datatype Revision = Revision(before: Option<Snapshot>, after: Snapshot)

  datatype Action = Create | Correct | SetPayment | PrintAttempt(attempt: nat)

  /** The signed JSON of an operation. `payload` is the canonical payload text. */
  datatype Signed = Signed(
    action: Action,
    baseRevision: Option<int>,
    originSession: string,
    originActor: Actor,
    terminal: string,
    occurredAt: Time,
    payload: string)

  datatype OpState = Pending | Error | Synced | Conflict | Rejected | Discarded | Resolved

  datatype Op = Op(
    signed: Signed,
    signature: string,
    key: Key,
    state: OpState,
    attempts: nat,
    lastError: Option<string>,
    nextAttempt: Option<Time>,
    quarantine: Option<string>)
  {
    predicate OnTransaction() { !signed.action.PrintAttempt? }
    predicate Unsent() { state == Pending || state == Error }
    predicate Unsettled() { state == Pending || state == Error || state == Conflict || state == Rejected }
    predicate Terminal() { (state == Rejected || state == Discarded) && lastError.Some? }
  }

  datatype Resolution = UseServer | RetryLocal
  datatype ConflictRow = ConflictRow(key: Key, local: Snapshot, server: Snapshot, resolution: Option<Resolution>)

  datatype Audit =
    | PaymentChanged(key: Key, at: Time, before: Snapshot, after: Snapshot)
    | PaymentConflictKept(key: Key, op: OpId, authoritative: Snapshot)

  datatype AttemptResult = AttemptPending | AttemptDone(state: PrintState)
  datatype Attempt = Attempt(key: Key, revision: int, result: AttemptResult)

  datatype Package = Package(revision: int, content: string, active: bool, deletedAt: Option<Time>)

  datatype Block = Block(reason: string, actor: Option<Actor>)

  type Items = map<(Key, int), set<Item>>
  type Revisions = map<(Key, int), Revision>

  datatype Db = Db(
    ops: seq<Op>,
    txs: map<Key, Txn>,
    items: Items,
    revs: Revisions,
    conflicts: seq<ConflictRow>,
    audits: seq<Audit>,
    prints: seq<Attempt>,
    packages: map<string, Package>,
    entities: map<(string, string), Option<string>>,
    cursor: Option<nat>,
    blocked: Option<Block>)

  const EMPTY_DB := Db([], map[], map[], map[], [], [], [], map[], map[], None, None)

  // ----- rows of transactions, items and revisions -----

  function ItemsAt(items: Items, key: Key, revision: int): set<Item> {
    if (key, revision) in items then items[(key, revision)] else {}
  }

  function SetSync(txs: map<Key, Txn>, key: Key, state: SyncState): map<Key, Txn> {
    if key in txs then txs[key := txs[key].(syncState := state)] else txs
  }

  function SetPrint(txs: map<Key, Txn>, key: Key, state: PrintState): map<Key, Txn> {
    if key in txs then txs[key := txs[key].(printState := state)] else txs
  }

  function Unconfirm(txs: map<Key, Txn>, key: Key, state: SyncState): map<Key, Txn> {
    if key in txs then
      txs[key := txs[key].(paymentStatus := PaymentPending, confirmedRevision := None, syncState := state)]
    else txs
  }

  function LinesTotal(lines: seq<Line>): int {
    if lines == [] then 0 else lines[0].quantity * lines[0].unitPrice + LinesTotal(lines[1..])
  }

  function LocalItems(op: OpId, lines: seq<Line>): set<Item> {
    set i: nat | i < |lines| :: Item(LocalItem(op, i), lines[i])
  }

  function MergedItems(key: Key, revision: int, lines: seq<Line>): set<Item> {
    set i: nat | i < |lines| :: Item(MergedItem(key, revision, i + 1), lines[i])
  }

  function HydrateFrom(txs: map<Key, Txn>, items: Items, key: Key): Snapshot
    requires key in txs
  {
    Snapshot(txs[key], ItemsAt(items, key, txs[key].revision))
  }

  function Hydrate(db: Db, key: Key): Snapshot
    requires key in db.txs
  {
    HydrateFrom(db.txs, db.items, key)
  }

  function WithSync(snapshot: Snapshot, state: SyncState): Snapshot {
    snapshot.(row := snapshot.row.(syncState := state))
  }

  function Replace(db: Db, key: Key, snapshot: Snapshot): Db {
    db.(txs := db.txs[key := snapshot.row], items := db.items[(key, snapshot.row.revision) := snapshot.items])
  }

  function ItemsBelow(items: Items, key: Key, bound: int): Items {
    map p | p in items && !(p.0 == key && p.1 >= bound) :: items[p]
  }

  function RevisionsBelow(revs: Revisions, key: Key, bound: int): Revisions {
    map p | p in revs && !(p.0 == key && p.1 >= bound) :: revs[p]
  }

  /** Both DELETE statements that drop items and revisions of `key` from `bound` upwards. */
  function DropFrom(db: Db, key: Key, bound: int): Db {
    db.(items := ItemsBelow(db.items, key, bound), revs := RevisionsBelow(db.revs, key, bound))
  }

  // ----- rows of the outbox -----

  predicate Blocks(op: Op) {
    op.Unsettled() || (op.state == Discarded && op.lastError.Some?)
  }

  predicate QuarantinedKey(ops: seq<Op>, key: Key) {
    exists i :: 0 <= i < |ops| && ops[i].key == key && ops[i].quarantine.Some?
  }

  predicate HasState(ops: seq<Op>, key: Key, state: OpState) {
    exists i :: 0 <= i < |ops| && ops[i].key == key && ops[i].state == state
  }

  predicate HasUnsettled(ops: seq<Op>, key: Key) {
    exists i :: 0 <= i < |ops| && ops[i].key == key && ops[i].Unsettled()
  }

  predicate HasTerminal(ops: seq<Op>, key: Key) {
    exists i :: 0 <= i < |ops| && ops[i].key == key && ops[i].Terminal()
  }

  /** hasTerminalTransactionBlock. */
  predicate TerminalBlock(ops: seq<Op>, key: Key) {
    exists i :: 0 <= i < |ops| && ops[i].key == key && ops[i].OnTransaction()
      && (ops[i].state == Conflict || ops[i].Terminal())
  }

  /** The reason of the first quarantined operation of the key, if any. */
  function KeyQuarantine(ops: seq<Op>, key: Key): (r: Option<string>)
    ensures r.Some? <==> QuarantinedKey(ops, key)
  {
    if ops == [] then None
    else if ops[0].key == key && ops[0].quarantine.Some? then ops[0].quarantine
    else
      var rest := KeyQuarantine(ops[1..], key);
      assert forall i :: 0 <= i < |ops[1..]| ==> ops[1..][i] == ops[i + 1];
      assert QuarantinedKey(ops[1..], key) ==> QuarantinedKey(ops, key);
      rest
  }

  /** insertOutbox: a new pending row; it inherits the scope's block or the key's quarantine. */
  function NewOp(db: Db, signed: Signed, signature: string, key: Key): Op {
    var quarantine := if db.blocked.Some? then Some(db.blocked.value.reason) else KeyQuarantine(db.ops, key);
    Op(signed, signature, key, Pending, 0, None, None, quarantine)
  }

  function Settle(op: Op, state: OpState): Op {
    op.(state := state, lastError := None, nextAttempt := None)
  }

  function Reject(op: Op, message: string): Op {
    op.(state := Rejected, attempts := op.attempts + 1, lastError := Some(message), nextAttempt := None)
  }

  /** Rejects every later unsent operation of the key. */
  function Cascade(ops: seq<Op>, key: Key, after: OpId, message: string): seq<Op> {
    seq(|ops|, j requires 0 <= j < |ops| =>
      if j > after && ops[j].key == key && ops[j].Unsent() then Reject(ops[j], message) else ops[j])
  }

  /** Rejected and discarded operations of the key become resolved. */
  function ResolveTerminal(ops: seq<Op>, key: Key): seq<Op> {
    seq(|ops|, j requires 0 <= j < |ops| =>
      if ops[j].key == key && (ops[j].state == Rejected || ops[j].state == Discarded) then Settle(ops[j], Resolved)
      else ops[j])
  }

  /** Rejected operations of the key become resolved (discarded ones stay). */
  function ResolveRejected(ops: seq<Op>, key: Key): seq<Op> {
    seq(|ops|, j requires 0 <= j < |ops| =>
      if ops[j].key == key && ops[j].state == Rejected then Settle(ops[j], Resolved) else ops[j])
  }

  function QuarantineUnsettled(ops: seq<Op>, reason: string): seq<Op> {
    seq(|ops|, j requires 0 <= j < |ops| =>
      if ops[j].Unsettled() then ops[j].(quarantine := Some(reason)) else ops[j])
  }

  /** recomputeTransactionSyncState. */
  function Recomputed(ops: seq<Op>, key: Key): SyncState {
    if HasState(ops, key, Conflict) then SyncConflict
    else if HasTerminal(ops, key) then SyncError
    else if HasState(ops, key, Error) then SyncError
    else if HasState(ops, key, Pending) then SyncPending
    else SyncSynced
  }
}
