/** One device and the server it synchronizes with, as a machine whose steps are the exported
    steps of the repository, the engine and the quarantine. A run is any sequence of steps. */
module Device {
  import opened LocalTables
  import opened Repository

  /** One row of the server's change log; cursors are positive and strictly increase. */
  datatype Entry = Entry(cursor: nat, change: Change)

  /** `inFlight`: fetched operations that are not marked yet. `pull`: the cursor variable of a
      pull in progress. `sent` (operations ever fetched), `applied` (log rows whose change was
      ever applied to its key), `reached` (log rows covered by the furthest committed page) and
      `stored` (packages ever written from a server list) are history and decide nothing. */
  datatype Device = Device(
    db: Db,
    inFlight: set<OpId>,
    pull: Option<nat>,
    log: seq<Entry>,
    sent: set<OpId>,
    applied: set<nat>,
    reached: nat,
    stored: set<string>)

  const NEW_DEVICE := Device(EMPTY_DB, {}, None, [], {}, {}, 0, {})

  /** `DoPullPage` answers with the log as it is when the page is applied; an answer read from an
      older, shorter log is a page with a smaller limit, or `DoPullEmpty` if it had no rows. */
  datatype Step =
    | DoEdit(edit: Edit)
    | DoFetch(now: Time, limit: nat)
    | DoMark(op: OpId, answer: Answer, now: Time)
    | DoAbortPush
    | DoDiscard(op: OpId, now: Time)
    | DoResolve(id: nat, shown: ConflictRow, resolution: Resolution, signing: Signing)
    | DoQuarantine(actor: Actor, reason: string)
    | DoRelease(actor: Actor, rows: set<OpId>, allowed: set<Origin>)
    | DoRevalidateScope
    | DoStorePackage(packageId: string, package: Package)
    | ServerCommit(entry: Entry)
    | DoPullBegin
    | DoPullPage(limit: nat, now: Time)
    | DoPullEmpty
    | DoPullEnd

  function Commit(d: Device, outcome: Outcome): Device {
    if outcome.Committed? then d.(db := outcome.db) else d
  }

  function LastCursor(log: seq<Entry>): nat {
    if log == [] then 0 else log[|log| - 1].cursor
  }

  /** The first log row after a cursor. */
  function After(log: seq<Entry>, cursor: nat): (r: nat)
    ensures r <= |log|
    ensures forall i :: 0 <= i < r ==> log[i].cursor <= cursor
    ensures r < |log| ==> log[r].cursor > cursor
  {
    if log == [] || log[0].cursor > cursor then 0 else 1 + After(log[1..], cursor)
  }

  datatype Page = Page(start: nat, end: nat, next: nat, hasMore: bool)

  /** Sync.Pull: limit + 1 rows after the cursor are read, `limit` of them are returned. */
  function PullPage(log: seq<Entry>, cursor: nat, limit: nat): (page: Page)
    ensures page.start == After(log, cursor) && page.start <= page.end <= |log|
  {
    var size := if limit < 1 || limit > 500 then 200 else limit;
    var start := After(log, cursor);
    var end := if start + size < |log| then start + size else |log|;
    Page(start, end, if end > start then log[end - 1].cursor else cursor, start + size < |log|)
  }

  function Changes(entries: seq<Entry>): (changes: seq<Change>)
    ensures |changes| == |entries|
    ensures forall i :: 0 <= i < |entries| ==> changes[i] == entries[i].change
  {
    seq(|entries|, i requires 0 <= i < |entries| => entries[i].change)
  }

  /** The transaction a change writes to, if any. */
  function Target(change: Change): Option<Key> {
    match change
    case TxUpsert(key, _) => Some(key)
    case TxDelete(key, _) => Some(key)
    case PrintUpsert(_, _, target) => if target.Some? then Some(target.value.0) else None
    case _ => None
  }

  /** A pull skips exactly the changes whose transaction has quarantined evidence. */
  predicate Skips(db: Db, change: Change) {
    Target(change).Some? && QuarantinedKey(db.ops, Target(change).value)
  }

  function Next(d: Device, step: Step): Device {
    match step
    case DoEdit(edit) => Commit(d, ApplyEdit(d.db, edit))
    case DoFetch(now, limit) =>
      if d.inFlight != {} then d
      else
        var batch := Batch(d.db.ops, 0, now, limit);
        var fetched := set b | b in batch;
        d.(inFlight := fetched, sent := d.sent + fetched)
    case DoMark(op, answer, now) =>
      if op in d.inFlight && op < |d.db.ops| then
        d.(db := Mark(d.db, op, Interpret(d.db, op, answer), now), inFlight := d.inFlight - {op})
      else d
    case DoAbortPush => d.(inFlight := {})
    case DoDiscard(op, now) => Commit(d, Discard(d.db, op, now))
    case DoResolve(id, shown, resolution, signing) => Commit(d, Resolve(d.db, id, shown, resolution, signing))
    case DoQuarantine(actor, reason) => d.(db := QuarantineScope(d.db, actor, reason))
    case DoRelease(actor, rows, allowed) => d.(db := ReleaseBatch(d.db, rows, actor, allowed))
    case DoRevalidateScope => d.(db := ScopeRevalidated(d.db))
    case DoStorePackage(id, package) =>
      d.(db := d.db.(packages := UpsertPackage(d.db.packages, id, package)), stored := d.stored + {id})
    case ServerCommit(entry) => if entry.cursor > LastCursor(d.log) then d.(log := d.log + [entry]) else d
    case DoPullBegin => d.(pull := Some(if d.db.cursor.Some? then d.db.cursor.value else 0))
    case DoPullPage(limit, now) =>
      if d.pull.None? then d
      else
        var page := PullPage(d.log, d.pull.value, limit);
        d.(db := ApplyPage(d.db, Changes(d.log[page.start..page.end]), page.next, now),
           pull := Some(page.next),
           applied := d.applied + (set i | page.start <= i < page.end && !Skips(d.db, d.log[i].change)),
           reached := if page.end > d.reached then page.end else d.reached)
    case DoPullEmpty => if d.pull.None? then d else d.(db := d.db.(cursor := d.pull))
    case DoPullEnd => d.(pull := None)
  }

  function Run(d: Device, steps: seq<Step>): Device
    decreases |steps|
  {
    if steps == [] then d else Next(Run(d, steps[..|steps| - 1]), steps[|steps| - 1])
  }

  lemma {:induction false} RunAppend(d: Device, first: seq<Step>, second: seq<Step>)
    ensures Run(d, first + second) == Run(Run(d, first), second)
    decreases |second|
  {
    if second == [] {
      assert first + second == first;
    } else {
      var cut := |second| - 1;
      assert (first + second)[..|first + second| - 1] == first + second[..cut];
      RunAppend(d, first, second[..cut]);
    }
  }
}
