/** Conflict bookkeeping: conflict operations, unresolved conflict records and the sync state
    of a transaction always agree; and what the two resolutions leave behind. */
module Conflicts {
  import opened LocalTables
  import opened Repository
  import opened Device
  import opened Frames
  import opened InOrder

  predicate InConflict(ops: seq<Op>, i: int, key: Key) {
    0 <= i < |ops| && ops[i].key == key && ops[i].state == Conflict
  }

  predicate Open(conflicts: seq<ConflictRow>, c: int, key: Key) {
    0 <= c < |conflicts| && conflicts[c].key == key && conflicts[c].resolution.None?
  }

  ghost predicate KeyBooked(db: Db, key: Key) {
    && (forall i, j :: InConflict(db.ops, i, key) && InConflict(db.ops, j, key) ==> i == j)
    && (forall c, e :: Open(db.conflicts, c, key) && Open(db.conflicts, e, key) ==> c == e)
    && ((exists i :: InConflict(db.ops, i, key)) <==> (exists c :: Open(db.conflicts, c, key)))
    && (key in db.txs ==> (db.txs[key].syncState == SyncConflict <==> exists i :: InConflict(db.ops, i, key)))
    // while a conflict is open, nothing but print evidence waits behind it
    && (forall i, j ::
          InConflict(db.ops, i, key) && 0 <= j < |db.ops| && db.ops[j].key == key && db.ops[j].Unsent() ==>
          !db.ops[j].OnTransaction())
    // only transaction operations conflict
    && (forall i :: InConflict(db.ops, i, key) ==> db.ops[i].OnTransaction())
  }

  ghost predicate Grounded(db: Db) {
    && (forall i :: 0 <= i < |db.ops| ==> db.ops[i].key in db.txs)
    && (forall p :: 0 <= p < |db.prints| ==> db.prints[p].key in db.txs)
  }

  ghost predicate Booked(db: Db) {
    Grounded(db) && forall key :: KeyBooked(db, key)
  }

  /** A step that leaves the conflict side of a key alone. */
  ghost predicate Untouched(db: Db, next: Db, key: Key) {
    && |db.ops| <= |next.ops|
    && (forall i :: 0 <= i < |db.ops| ==>
          next.ops[i].key == db.ops[i].key && next.ops[i].signed == db.ops[i].signed
          && (db.ops[i].key == key ==>
                (next.ops[i].state == Conflict <==> db.ops[i].state == Conflict)
                && (next.ops[i].Unsent() ==> db.ops[i].Unsent())))
    && (forall i :: |db.ops| <= i < |next.ops| && next.ops[i].key == key ==>
          next.ops[i].state == Pending && (next.ops[i].OnTransaction() ==> !HasState(db.ops, key, Conflict)))
    && |db.conflicts| <= |next.conflicts|
    && (forall c :: 0 <= c < |db.conflicts| ==>
          next.conflicts[c].key == db.conflicts[c].key
            && (db.conflicts[c].key == key ==> next.conflicts[c].resolution == db.conflicts[c].resolution))
    && (forall c :: |db.conflicts| <= c < |next.conflicts| ==> next.conflicts[c].key != key)
    && (key in next.txs
       ==> (next.txs[key].syncState == SyncConflict <==> key in db.txs && db.txs[key].syncState == SyncConflict))
  }

  lemma UntouchedStaysBooked(db: Db, next: Db, key: Key)
    requires Grounded(db) && KeyBooked(db, key) && Untouched(db, next, key)
    ensures KeyBooked(next, key)
  {
    forall i ensures InConflict(next.ops, i, key) <==> InConflict(db.ops, i, key) {
    }
    forall c ensures Open(next.conflicts, c, key) <==> Open(db.conflicts, c, key) {
    }
    forall i, j | InConflict(next.ops, i, key) && 0 <= j < |next.ops| && next.ops[j].key == key && next.ops[j].Unsent()
      ensures !next.ops[j].OnTransaction()
    {
      assert InConflict(db.ops, i, key);
      if j >= |db.ops| { assert HasState(db.ops, key, Conflict); }
    }
  }

  // ----- steps -----

  lemma EditStaysBooked(db: Db, edit: Edit)
    requires Booked(db) && ApplyEdit(db, edit).Committed?
    ensures Booked(ApplyEdit(db, edit).db)
  {
    EditGrounded(db, edit);
    forall key ensures KeyBooked(ApplyEdit(db, edit).db, key) {
      EditUntouched(db, edit, key);
      UntouchedStaysBooked(db, ApplyEdit(db, edit).db, key);
    }
  }

  lemma EditGrounded(db: Db, edit: Edit)
    requires Booked(db) && ApplyEdit(db, edit).Committed?
    ensures Grounded(ApplyEdit(db, edit).db)
  {
  }

  lemma NoConflictState(db: Db, key: Key)
    requires Booked(db)
    requires key !in db.txs || db.txs[key].syncState != SyncConflict
    ensures !HasState(db.ops, key, Conflict)
  {
    assert KeyBooked(db, key);
    forall i | 0 <= i < |db.ops| && db.ops[i].key == key && db.ops[i].state == Conflict ensures false {
      assert InConflict(db.ops, i, key);
    }
  }

  lemma EditUntouched(db: Db, edit: Edit, key: Key)
    requires Booked(db) && ApplyEdit(db, edit).Committed?
    ensures Untouched(db, ApplyEdit(db, edit).db, key)
  {
    if key !in db.txs || db.txs[key].syncState != SyncConflict { NoConflictState(db, key); }
    if edit.EditCreate? || edit.EditBeginPrint? || edit.EditCompletePrint? {
      NewEvidenceUntouched(db, edit, key);
    } else {
      ChangeUntouched(db, edit, key);
    }
  }

  lemma NewEvidenceUntouched(db: Db, edit: Edit, key: Key)
    requires Booked(db) && ApplyEdit(db, edit).Committed?
    requires edit.EditCreate? || edit.EditBeginPrint? || edit.EditCompletePrint?
    requires key !in db.txs || db.txs[key].syncState != SyncConflict ==> !HasState(db.ops, key, Conflict)
    ensures Untouched(db, ApplyEdit(db, edit).db, key)
  {
  }

  lemma ChangeUntouched(db: Db, edit: Edit, key: Key)
    requires Booked(db) && ApplyEdit(db, edit).Committed?
    requires edit.EditCorrect? || edit.EditPayment?
    requires key !in db.txs || db.txs[key].syncState != SyncConflict ==> !HasState(db.ops, key, Conflict)
    ensures Untouched(db, ApplyEdit(db, edit).db, key)
  {
  }

  lemma MarkGrounded(d: Device, i: OpId, result: MarkResult, now: Time)
    requires Booked(d.db) && i < |d.db.ops| && d.db.ops[i].Unsent()
    ensures Grounded(Mark(d.db, i, result, now))
  {
    MarkShape(d.db, i, result, now);
  }

  /** Every answer but a revision conflict leaves all conflicts as they were. */
  lemma MarkUntouched(d: Device, i: OpId, result: MarkResult, now: Time, key: Key)
    requires Booked(d.db) && Ordered(d) && i in d.inFlight
    requires !result.MarkConflict? || key != d.db.ops[i].key
    ensures Untouched(d.db, Mark(d.db, i, result, now), key)
  {
    var own := d.db.ops[i].key;
    NoConflictBesideFlight(d, i);
    MarkShape(d.db, i, result, now);
    assert d.db.txs[own].syncState != SyncConflict;
  }

  /** The key of an in-flight operation has no operation in conflict. */
  lemma NoConflictBesideFlight(d: Device, i: OpId)
    requires Booked(d.db) && Ordered(d) && i in d.inFlight
    ensures forall j :: !InConflict(d.db.ops, j, d.db.ops[i].key)
    ensures d.db.ops[i].key in d.db.txs && d.db.txs[d.db.ops[i].key].syncState != SyncConflict
  {
    var key := d.db.ops[i].key;
    assert KeyBooked(d.db, key);
    assert forall j :: 0 <= j < i && d.db.ops[j].key == key ==> !Blocks(d.db.ops[j]);
    assert forall j :: i < j < |d.db.ops| && d.db.ops[j].key == key ==> d.db.ops[j].state == Pending;
  }

  lemma MarkConflictBooked(d: Device, i: OpId, local: Snapshot, server: Snapshot, now: Time)
    requires Booked(d.db) && Ordered(d) && i in d.inFlight && d.db.ops[i].OnTransaction()
    ensures KeyBooked(Mark(d.db, i, MarkConflict(local, server), now), d.db.ops[i].key)
  {
    var db, next := d.db, Mark(d.db, i, MarkConflict(local, server), now);
    var key := db.ops[i].key;
    NoConflictBesideFlight(d, i);
    forall j ensures InConflict(next.ops, j, key) <==> j == i {
    }
    assert InConflict(next.ops, i, key);
    var last := |db.conflicts|;
    assert KeyBooked(db, key);
    forall c ensures Open(next.conflicts, c, key) <==> c == last {
      assert !Open(db.conflicts, c, key);
    }
    assert Open(next.conflicts, last, key);
    assert forall j :: 0 <= j < i && db.ops[j].key == key ==> !Blocks(db.ops[j]);
    assert forall j :: 0 <= j < |next.ops| && next.ops[j].key == key ==> !next.ops[j].Unsent();
  }

  lemma MarkStaysBooked(d: Device, i: OpId, answer: Answer, now: Time)
    requires Booked(d.db) && Ordered(d) && i in d.inFlight
    ensures Booked(Mark(d.db, i, Interpret(d.db, i, answer), now))
  {
    var result := Interpret(d.db, i, answer);
    var next := Mark(d.db, i, result, now);
    MarkGrounded(d, i, result, now);
    forall key ensures KeyBooked(next, key) {
      if result.MarkConflict? && key == d.db.ops[i].key {
        assert d.db.ops[i].OnTransaction();
        MarkConflictBooked(d, i, result.local, result.server, now);
      } else {
        MarkUntouched(d, i, result, now, key);
        UntouchedStaysBooked(d.db, next, key);
      }
    }
  }

  // ----- discarding -----

  lemma EditDiscardUntouched(db: Db, next: Db, i: OpId, key: Key)
    requires Booked(db) && DiscardShape(db, next, i) && next != db && db.ops[i].OnTransaction()
    ensures Untouched(db, next, key)
  {
    assert KeyBooked(db, key);
    assert forall j :: InConflict(db.ops, j, key) ==> HasState(db.ops, key, Conflict);
  }

  lemma PrintDiscardUntouched(db: Db, next: Db, i: OpId, key: Key)
    requires Booked(db) && DiscardShape(db, next, i) && next != db && !db.ops[i].OnTransaction()
    ensures Untouched(db, next, key)
  {
    assert KeyBooked(db, key);
    assert forall j :: InConflict(db.ops, j, key) ==> HasState(db.ops, key, Conflict);
  }

  lemma ShapedUntouched(db: Db, next: Db, i: OpId, key: Key)
    requires Booked(db) && DiscardShape(db, next, i)
    ensures Untouched(db, next, key)
  {
    if next == db {
      assert KeyBooked(db, key);
    } else if db.ops[i].OnTransaction() {
      EditDiscardUntouched(db, next, i, key);
    } else {
      PrintDiscardUntouched(db, next, i, key);
    }
  }

  lemma DiscardStaysBooked(db: Db, i: OpId, now: Time)
    requires Booked(db) && Discard(db, i, now).Committed?
    ensures Booked(Discard(db, i, now).db)
  {
    DiscardFrame(db, i, now);
    ShapedStaysBooked(db, Discard(db, i, now).db, i);
  }

  lemma ShapedStaysBooked(db: Db, next: Db, i: OpId)
    requires Booked(db) && DiscardShape(db, next, i)
    ensures Booked(next)
  {
    if next != db {
      forall key ensures KeyBooked(next, key) {
        ShapedUntouched(db, next, i, key);
        UntouchedStaysBooked(db, next, key);
      }
      ShapedUntouched(db, next, i, db.ops[i].key);
    }
  }

  // ----- pulling -----

  lemma ConflictSeen(ops: seq<Op>, key: Key)
    ensures HasState(ops, key, Conflict) <==> exists i :: InConflict(ops, i, key)
  {
    if HasState(ops, key, Conflict) {
      var i :| 0 <= i < |ops| && ops[i].key == key && ops[i].state == Conflict;
      assert InConflict(ops, i, key);
    }
  }

  lemma PulledKeyBooked(db: Db, next: Db, key: Key)
    requires KeyBooked(db, key) && PulledInto(db, next, key)
    ensures KeyBooked(next, key)
  {
    forall i ensures InConflict(next.ops, i, key) <==> InConflict(db.ops, i, key) {
      if 0 <= i < |db.ops| {
        assert next.ops[i].key == db.ops[i].key && (next.ops[i].state == Conflict <==> db.ops[i].state == Conflict);
      }
    }
    forall c ensures Open(next.conflicts, c, key) <==> Open(db.conflicts, c, key) {
      if 0 <= c < |db.conflicts| { assert next.conflicts[c].key == db.conflicts[c].key; }
    }
    ConflictSeen(next.ops, key);
  }

  lemma PulledUntouched(db: Db, next: Db, key: Key, other: Key)
    requires PulledInto(db, next, key) && other != key
    ensures Untouched(db, next, other)
  {
  }

  lemma PulledStaysBooked(db: Db, next: Db, key: Key)
    requires Booked(db) && PulledInto(db, next, key)
    ensures Booked(next)
  {
    assert forall i :: 0 <= i < |db.ops| ==> next.ops[i].key == db.ops[i].key;
    forall k ensures KeyBooked(next, k) {
      if k == key { PulledKeyBooked(db, next, key); }
      else { PulledUntouched(db, next, key, k); UntouchedStaysBooked(db, next, k); }
    }
  }

  lemma ApplyChangeStaysBooked(db: Db, change: Change, now: Time)
    requires Booked(db)
    ensures Booked(ApplyChange(db, change, now))
  {
    if (change.TxUpsert? || change.TxDelete?) && !QuarantinedKey(db.ops, change.key) {
      ApplyToTxFrame(db, change.key, change);
      PulledStaysBooked(db, ApplyToTx(db, change.key, change), change.key);
    } else {
      SideChangeBooked(db, ApplyChange(db, change, now));
    }
  }

  lemma SideChangeBooked(db: Db, next: Db)
    requires Booked(db)
    requires next.ops == db.ops && next.conflicts == db.conflicts && next.prints == db.prints
      && next.txs.Keys == db.txs.Keys
    requires forall k :: k in db.txs ==> next.txs[k].syncState == db.txs[k].syncState
    ensures Booked(next)
  {
    forall key ensures KeyBooked(next, key) {
      UntouchedStaysBooked(db, next, key);
    }
  }

  lemma {:induction false} ApplyChangesStayBooked(db: Db, changes: seq<Change>, now: Time)
    requires Booked(db)
    ensures Booked(ApplyChanges(db, changes, now))
    decreases |changes|
  {
    if changes != [] {
      ApplyChangeStaysBooked(db, changes[0], now);
      ApplyChangesStayBooked(ApplyChange(db, changes[0], now), changes[1..], now);
    }
  }

  // ----- resolving -----

  ghost predicate ResolvedInto(db: Db, next: Db, source: OpId, id: nat, key: Key) {
    && source < |db.ops| && id < |db.conflicts|
    && InConflict(db.ops, source, key) && Open(db.conflicts, id, key)
    && (next.ops == Closed(db.ops, source, key)
        || exists op: Op :: op.state == Pending && op.key == key && next.ops == Closed(db.ops + [op], source, key))
    && |next.conflicts| == |db.conflicts|
    && (forall c :: 0 <= c < |db.conflicts| && c != id ==> next.conflicts[c] == db.conflicts[c])
    && next.conflicts[id].key == key && next.conflicts[id].resolution.Some?
    && next.prints == db.prints
    && db.txs.Keys <= next.txs.Keys
    && (forall k :: k in next.txs && k != key ==> k in db.txs && next.txs[k] == db.txs[k])
    && key in next.txs && next.txs[key].syncState != SyncConflict
  }

  lemma ResolveShape(db: Db, id: nat, shown: ConflictRow, resolution: Resolution, signing: Signing)
    ensures var r := Resolve(db, id, shown, resolution, signing);
      r.Committed? ==>
        && ConflictSource(db.ops, shown.key, 0).Some?
        && ResolvedInto(db, r.db, ConflictSource(db.ops, shown.key, 0).value, id, shown.key)
  {
  }

  lemma ResolvedKeyBooked(db: Db, next: Db, source: OpId, id: nat, key: Key)
    requires KeyBooked(db, key) && ResolvedInto(db, next, source, id, key)
    ensures KeyBooked(next, key)
  {
    forall i ensures !InConflict(next.ops, i, key) {
      assert i != source ==> !InConflict(db.ops, i, key);
    }
    forall c ensures !Open(next.conflicts, c, key) {
      assert c != id ==> !Open(db.conflicts, c, key);
    }
  }

  lemma ResolvedUntouched(db: Db, next: Db, source: OpId, id: nat, key: Key, other: Key)
    requires ResolvedInto(db, next, source, id, key) && other != key
    ensures Untouched(db, next, other)
  {
  }

  lemma ResolvedStaysBooked(db: Db, next: Db, source: OpId, id: nat, key: Key)
    requires Booked(db) && ResolvedInto(db, next, source, id, key)
    ensures Booked(next)
  {
    forall k ensures KeyBooked(next, k) {
      if k == key { ResolvedKeyBooked(db, next, source, id, key); }
      else { ResolvedUntouched(db, next, source, id, key, k); UntouchedStaysBooked(db, next, k); }
    }
  }

  // ----- runs -----

  lemma QuarantineStaysBooked(d: Device, step: Step)
    requires Booked(d.db) && (step.DoQuarantine? || step.DoRelease? || step.DoRevalidateScope?)
    ensures Booked(Next(d, step).db)
  {
    var next := Next(d, step).db;
    forall key ensures KeyBooked(next, key) {
      UntouchedStaysBooked(d.db, next, key);
    }
  }

  lemma StepStaysBooked(d: Device, step: Step)
    requires Booked(d.db) && Ordered(d)
    ensures Booked(Next(d, step).db)
  {
    var db := d.db;
    if step.DoEdit? {
      if ApplyEdit(db, step.edit).Committed? { EditStaysBooked(db, step.edit); }
    } else if step.DoMark? {
      if step.op in d.inFlight { MarkStaysBooked(d, step.op, step.answer, step.now); }
    } else if step.DoDiscard? {
      if Discard(db, step.op, step.now).Committed? { DiscardStaysBooked(db, step.op, step.now); }
    } else if step.DoResolve? {
      ResolveShape(db, step.id, step.shown, step.resolution, step.signing);
      var r := Resolve(db, step.id, step.shown, step.resolution, step.signing);
      if r.Committed? {
        ResolvedStaysBooked(db, r.db, ConflictSource(db.ops, step.shown.key, 0).value, step.id, step.shown.key);
      }
    } else if step.DoPullPage? {
      if d.pull.Some? {
        var page := PullPage(d.log, d.pull.value, step.limit);
        ApplyChangesStayBooked(db, Changes(d.log[page.start..page.end]), step.now);
        SideChangeBooked(ApplyChanges(db, Changes(d.log[page.start..page.end]), step.now), Next(d, step).db);
      }
    } else if step.DoStorePackage? || step.DoPullEmpty? {
      SideChangeBooked(db, Next(d, step).db);
    } else if step.DoQuarantine? || step.DoRelease? || step.DoRevalidateScope? {
      QuarantineStaysBooked(d, step);
    }
  }

  lemma {:induction false} RunsAreBooked(steps: seq<Step>)
    ensures Booked(Run(NEW_DEVICE, steps).db)
    decreases |steps|
  {
    if steps != [] {
      RunsAreBooked(steps[..|steps| - 1]);
      RunsAreOrdered(steps[..|steps| - 1]);
      StepStaysBooked(Run(NEW_DEVICE, steps[..|steps| - 1]), steps[|steps| - 1]);
    }
  }

  function ConflictOps(ops: seq<Op>, key: Key): set<int> {
    set i | 0 <= i < |ops| && InConflict(ops, i, key)
  }

  function OpenRecords(conflicts: seq<ConflictRow>, key: Key): set<int> {
    set c | 0 <= c < |conflicts| && Open(conflicts, c, key)
  }

  /** In every reachable device and for every transaction: at most one operation is in conflict,
      as many conflict records are unresolved as operations are in conflict, and the row says
      'conflict' exactly when there is one. */
  lemma ConflictsAgree(steps: seq<Step>, key: Key)
    ensures var db := Run(NEW_DEVICE, steps).db;
      && |ConflictOps(db.ops, key)| == |OpenRecords(db.conflicts, key)| <= 1
      && (key in db.txs ==> (db.txs[key].syncState == SyncConflict <==> |ConflictOps(db.ops, key)| == 1))
      && (key !in db.txs ==> ConflictOps(db.ops, key) == {})
  {
    RunsAreBooked(steps);
    var db := Run(NEW_DEVICE, steps).db;
    assert KeyBooked(db, key);
    var ops, open := ConflictOps(db.ops, key), OpenRecords(db.conflicts, key);
    if i :| InConflict(db.ops, i, key) {
      var c :| Open(db.conflicts, c, key);
      assert ops == {i} && open == {c};
    } else {
      assert ops == {} && open == {};
    }
  }

  /** Choosing the server's version, in any reachable device. */
  lemma ServerChoiceResult(steps: seq<Step>, id: nat, shown: ConflictRow, signing: Signing)
    requires Resolve(Run(NEW_DEVICE, steps).db, id, shown, UseServer, signing).Committed?
    ensures var next := Resolve(Run(NEW_DEVICE, steps).db, id, shown, UseServer, signing).db;
      && shown.key in next.txs && Hydrate(next, shown.key) == WithSync(shown.server, SyncSynced)
      && ConflictOps(next.ops, shown.key) == {} && OpenRecords(next.conflicts, shown.key) == {}
      && !HasState(next.ops, shown.key, Rejected)
      && |next.ops| == |Run(NEW_DEVICE, steps).db.ops|
      && (forall r :: (shown.key, r) in next.items && r >= shown.local.row.revision ==> r == shown.server.row.revision)
      && (forall r :: (shown.key, r) in next.revs ==> r < shown.local.row.revision)
  {
    ResolvedKey(steps, id, shown, UseServer, signing);
  }

  lemma ResolvedKey(steps: seq<Step>, id: nat, shown: ConflictRow, resolution: Resolution, signing: Signing)
    requires Resolve(Run(NEW_DEVICE, steps).db, id, shown, resolution, signing).Committed?
    ensures var next := Resolve(Run(NEW_DEVICE, steps).db, id, shown, resolution, signing).db;
      ConflictOps(next.ops, shown.key) == {} && OpenRecords(next.conflicts, shown.key) == {}
        && !HasState(next.ops, shown.key, Rejected)
  {
    var db := Run(NEW_DEVICE, steps).db;
    RunsAreBooked(steps);
    ResolveShape(db, id, shown, resolution, signing);
    ResolvedKeyIsClean(db, Resolve(db, id, shown, resolution, signing).db, ConflictSource(db.ops, shown.key, 0).value,
      id, shown.key);
  }

  lemma ResolvedKeyIsClean(db: Db, next: Db, source: OpId, id: nat, key: Key)
    requires Booked(db) && ResolvedInto(db, next, source, id, key)
    ensures ConflictOps(next.ops, key) == {} && OpenRecords(next.conflicts, key) == {}
      && !HasState(next.ops, key, Rejected)
  {
    assert KeyBooked(db, key);
    ResolvedKeyBooked(db, next, source, id, key);
    assert forall i :: !InConflict(next.ops, i, key);
    assert forall c :: !Open(next.conflicts, c, key);
  }

  /** The transaction after a retry: the local sale and items, moved on top of the server's revision. */
  ghost predicate MovedOnto(next: Snapshot, local: Snapshot, server: Snapshot, session: Session) {
    && next.items == local.items
    && next.row.sale.total == local.row.sale.total && next.row.sale.paymentAmount == local.row.sale.total
    && next.row.sale.payment == local.row.sale.payment && next.row.sale.qrisHash == local.row.sale.qrisHash
    && next.row.sale.occurredAt == local.row.sale.occurredAt
    && next.row.originActor == local.row.originActor && next.row.terminal == local.row.terminal
    && next.row.printState == local.row.printState && next.row.deletedAt == local.row.deletedAt
    && next.row.revision == server.row.revision + 1 && next.row.receiptIdentity == server.row.receiptIdentity
    && next.row.updatedBy == session.name && next.row.syncState == SyncPending
    && next.row.paymentStatus == PaymentPending && next.row.confirmedRevision == None
  }

  /** The rows that a retry writes. */
  ghost predicate RetryWrote(db: Db, next: Db, shown: ConflictRow, source: OpId, signing: Signing) {
    var key, n := shown.key, |db.ops|;
    && source < n && |next.ops| == n + 1
    && next.ops[n].key == key && next.ops[n].state == Pending && next.ops[n].signature == signing.signature
    && next.ops[n].signed
       == Sign(Correct, Some(shown.server.row.revision), signing.(payload := db.ops[source].signed.payload))
    && (forall i :: 0 <= i < n ==> next.ops[i].key == db.ops[i].key && next.ops[i].signed == db.ops[i].signed
                                   && (next.ops[i].state == db.ops[i].state || next.ops[i].state == Resolved))
    && key in next.txs && MovedOnto(Hydrate(next, key), shown.local, shown.server, signing.session)
    && (key, shown.server.row.revision + 1) in next.revs
    && next.revs[(key, shown.server.row.revision + 1)]
       == Revision(Some(WithSync(shown.server, SyncSynced)), Hydrate(next, key))
    && (forall r :: r >= shown.local.row.revision && ((key, r) in next.items || (key, r) in next.revs) ==>
          r == shown.server.row.revision + 1)
  }

  lemma RetryWrites(db: Db, id: nat, shown: ConflictRow, signing: Signing)
    requires Resolve(db, id, shown, RetryLocal, signing).Committed?
    ensures RetryWrote(db, Resolve(db, id, shown, RetryLocal, signing).db, shown,
      ConflictSource(db.ops, shown.key, 0).value, signing)
  {
  }

  lemma NothingElseUnsettled(db: Db, next: Db, shown: ConflictRow, source: OpId, signing: Signing)
    requires KeyBooked(db, shown.key) && RetryWrote(db, next, shown, source, signing)
      && InConflict(db.ops, source, shown.key)
    requires ConflictOps(next.ops, shown.key) == {} && !HasState(next.ops, shown.key, Rejected)
    ensures forall i :: 0 <= i < |db.ops| && next.ops[i].key == shown.key && next.ops[i].OnTransaction() ==>
      !next.ops[i].Unsettled()
  {
    forall i | 0 <= i < |db.ops| && next.ops[i].key == shown.key && next.ops[i].OnTransaction()
      ensures !next.ops[i].Unsettled()
    {
      assert i !in ConflictOps(next.ops, shown.key);
      assert !db.ops[i].Unsent();
    }
  }

  /** Retrying the local version: the only unsettled edit of the transaction is then one new
      pending correction, signed on top of the server's revision with the payload kept. */
  lemma RetryResult(steps: seq<Step>, id: nat, shown: ConflictRow, signing: Signing)
    requires Resolve(Run(NEW_DEVICE, steps).db, id, shown, RetryLocal, signing).Committed?
    ensures var db := Run(NEW_DEVICE, steps).db;
      var next := Resolve(db, id, shown, RetryLocal, signing).db;
      && (exists source :: InConflict(db.ops, source, shown.key) && RetryWrote(db, next, shown, source, signing))
      && (forall i :: 0 <= i < |db.ops| && next.ops[i].key == shown.key && next.ops[i].OnTransaction() ==>
         !next.ops[i].Unsettled())
      && ConflictOps(next.ops, shown.key) == {} && OpenRecords(next.conflicts, shown.key) == {}
  {
    var db := Run(NEW_DEVICE, steps).db;
    var next := Resolve(db, id, shown, RetryLocal, signing).db;
    ResolvedKey(steps, id, shown, RetryLocal, signing);
    RunsAreBooked(steps);
    RetryWrites(db, id, shown, signing);
    var source := ConflictSource(db.ops, shown.key, 0).value;
    assert InConflict(db.ops, source, shown.key);
    NothingElseUnsettled(db, next, shown, source, signing);
  }
}
