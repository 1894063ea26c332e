/** Convergence: pulling page by page, crashing, restarting from the beginning or being rewound
    by a release always ends in the same view, the fold of the server's log. */
module Convergence {
  import opened LocalTables
  import opened Repository
  import opened Device
  import opened Frames
  import opened InOrder
  import opened ServerLog

  // ----- the reference: folding the log -----

  function FoldTx(v: Option<Snapshot>, entries: seq<Entry>, key: Key): Option<Snapshot>
    decreases |entries|
  {
    if entries == [] then v else TxStep(FoldTx(v, entries[..|entries| - 1], key), entries[|entries| - 1].change, key)
  }

  function TxStep(v: Option<Snapshot>, change: Change, key: Key): Option<Snapshot> {
    match change
    case TxUpsert(k, snapshot) => if k == key then Some(WithSync(snapshot, SyncSynced)) else v
    case TxDelete(k, at) =>
      if k == key && v.Some? then
        var row := v.value.row;
        Some(v.value.(row :=
          row.(deletedAt := if row.deletedAt.Some? then row.deletedAt else Some(at), syncState := SyncSynced)))
      else v
    case PrintUpsert(_, _, target) =>
      if target.Some? && target.value.0 == key && v.Some?
        then Some(v.value.(row := v.value.row.(printState := target.value.1))) else v
    case _ => v
  }

  /** A package as the app shows it; only whether it is deleted counts, not when. */
  datatype Shown = Shown(revision: int, content: string, active: bool, deleted: bool)

  function ShownPackage(p: Package): Shown { Shown(p.revision, p.content, p.active, p.deletedAt.Some?) }

  function FoldPackage(v: Option<Shown>, entries: seq<Entry>, id: string): Option<Shown>
    decreases |entries|
  {
    if entries == [] then v
      else PackageStep(FoldPackage(v, entries[..|entries| - 1], id), entries[|entries| - 1].change, id)
  }

  function PackageStep(v: Option<Shown>, change: Change, id: string): Option<Shown> {
    match change
    case PackageUpsert(k, package) => if k == id && (v.None? || package.revision >= v.value.revision)
      then Some(ShownPackage(package)) else v
    case PackageDelete(k) => if k == id && v.Some? then Some(v.value.(active := false, deleted := true)) else v
    case _ => v
  }

  function TxView(db: Db, key: Key): Option<Snapshot> { if key in db.txs then Some(Hydrate(db, key)) else None }

  function PackageView(db: Db, id: string): Option<Shown> {
    if id in db.packages then Some(ShownPackage(db.packages[id])) else None
  }

  predicate NoOps(ops: seq<Op>, key: Key) { forall i :: 0 <= i < |ops| ==> ops[i].key != key }

  /** Every local operation of the transaction is settled and free. */
  predicate Settled(ops: seq<Op>, key: Key) {
    forall i :: 0 <= i < |ops| && ops[i].key == key ==> !ops[i].Unsettled() && ops[i].quarantine.None?
  }

  /** Besides that, none of them is a discarded one that nothing has resolved yet. */
  predicate Clean(ops: seq<Op>, key: Key) {
    forall i :: 0 <= i < |ops| && ops[i].key == key ==>
      (ops[i].state == Synced || ops[i].state == Resolved) && ops[i].quarantine.None?
  }

  /** No operation of the transaction was added. */
  predicate Unedited(ops: seq<Op>, later: seq<Op>, key: Key) {
    forall i :: |ops| <= i < |later| ==> later[i].key != key
  }

  // ----- folds -----

  lemma {:induction false} FoldTxSplit(v: Option<Snapshot>, first: seq<Entry>, second: seq<Entry>, key: Key)
    ensures FoldTx(v, first + second, key) == FoldTx(FoldTx(v, first, key), second, key)
    decreases |second|
  {
    if second == [] {
      assert first + second == first;
    } else {
      assert (first + second)[..|first + second| - 1] == first + second[..|second| - 1];
      FoldTxSplit(v, first, second[..|second| - 1], key);
    }
  }

  lemma {:induction false} FoldPackageSplit(v: Option<Shown>, first: seq<Entry>, second: seq<Entry>, id: string)
    ensures FoldPackage(v, first + second, id) == FoldPackage(FoldPackage(v, first, id), second, id)
    decreases |second|
  {
    if second == [] {
      assert first + second == first;
    } else {
      assert (first + second)[..|first + second| - 1] == first + second[..|second| - 1];
      FoldPackageSplit(v, first, second[..|second| - 1], id);
    }
  }

  predicate Upserts(entries: seq<Entry>, key: Key) {
    exists i :: 0 <= i < |entries| && entries[i].change.TxUpsert? && entries[i].change.key == key
  }

  /** After an upsert the starting view is forgotten; without one an absent row stays absent. */
  lemma {:induction false} FoldTxForgets(v: Option<Snapshot>, w: Option<Snapshot>, entries: seq<Entry>, key: Key)
    ensures Upserts(entries, key) ==> FoldTx(v, entries, key) == FoldTx(w, entries, key)
    ensures !Upserts(entries, key) ==> (FoldTx(v, entries, key).None? <==> v.None?)
    decreases |entries|
  {
    if entries != [] {
      var cut := entries[..|entries| - 1];
      FoldTxForgets(v, w, cut, key);
      var last := entries[|entries| - 1].change;
      if !(last.TxUpsert? && last.key == key) {
        assert Upserts(entries, key) <==> Upserts(cut, key) by {
          if i :| 0 <= i < |entries| && entries[i].change.TxUpsert? && entries[i].change.key == key {
            assert i < |cut| && cut[i] == entries[i];
          }
          if i :| 0 <= i < |cut| && cut[i].change.TxUpsert? && cut[i].change.key == key { assert entries[i] == cut[i]; }
        }
      } else {
        assert entries[|entries| - 1].change.key == key;
      }
    }
  }

  lemma {:induction false} FoldTxKeepsRow(v: Option<Snapshot>, entries: seq<Entry>, key: Key)
    requires v.Some?
    ensures FoldTx(v, entries, key).Some?
    decreases |entries|
  {
    if entries != [] { FoldTxKeepsRow(v, entries[..|entries| - 1], key); }
  }

  /** If finishing a pull gives the fold of the log, so does starting it all over. */
  lemma TxRestartAbsorbed(v: Option<Snapshot>, log: seq<Entry>, q: nat, n: nat, key: Key)
    requires q <= n <= |log| && FoldTx(v, log[q..n], key) == FoldTx(None, log[..n], key)
    ensures FoldTx(v, log[..n], key) == FoldTx(None, log[..n], key)
  {
    FoldTxForgets(v, None, log[..n], key);
    if !Upserts(log[..n], key) {
      FoldTxForgets(None, v, log[..n], key);
      if v.Some? { FoldTxKeepsRow(v, log[q..n], key); }
    }
  }

  // the highest revision of a package among the entries
  function TopRevision(entries: seq<Entry>, id: string): Option<int>
    decreases |entries|
  {
    if entries == [] then None
    else
      var top := TopRevision(entries[..|entries| - 1], id);
      var last := entries[|entries| - 1].change;
      if last.PackageUpsert? && last.id == id && (top.None? || last.package.revision >= top.value)
        then Some(last.package.revision) else top
  }

  predicate Below(v: Option<Shown>, top: Option<int>) { v.Some? ==> top.Some? && v.value.revision <= top.value }

  /** Old revisions never overwrite newer ones, so a view no newer than the log is forgotten. */
  lemma {:induction false} FoldPackageForgets(v: Option<Shown>, entries: seq<Entry>, id: string)
    requires Below(v, TopRevision(entries, id))
    ensures FoldPackage(v, entries, id) == FoldPackage(None, entries, id)
    decreases |entries|
  {
    if entries != [] {
      var cut := entries[..|entries| - 1];
      if Below(v, TopRevision(cut, id)) {
        FoldPackageForgets(v, cut, id);
      } else {
        FoldPackageRevision(v, cut, id);
        FoldPackageRevision(None, cut, id);
      }
    }
  }

  /** The folded revision is the highest seen, counting the start. */
  lemma {:induction false} FoldPackageRevision(v: Option<Shown>, entries: seq<Entry>, id: string)
    ensures var top := TopRevision(entries, id); var r := FoldPackage(v, entries, id);
      && (r.None? <==> v.None? && top.None?)
      && (r.Some? ==>
            && (v.Some? ==> v.value.revision <= r.value.revision)
            && (top.Some? ==> top.value <= r.value.revision)
            && ((v.Some? && r.value.revision == v.value.revision) || (top.Some? && r.value.revision == top.value)))
    decreases |entries|
  {
    if entries != [] { FoldPackageRevision(v, entries[..|entries| - 1], id); }
  }

  lemma PackageRestartAbsorbed(v: Option<Shown>, log: seq<Entry>, q: nat, n: nat, id: string)
    requires q <= n <= |log| && FoldPackage(v, log[q..n], id) == FoldPackage(None, log[..n], id)
    ensures FoldPackage(v, log[..n], id) == FoldPackage(None, log[..n], id)
  {
    FoldPackageRevision(v, log[q..n], id);
    FoldPackageRevision(None, log[..n], id);
    FoldPackageForgets(v, log[..n], id);
  }

  // ----- pages follow the fold -----

  lemma {:induction false} NoTerminalCorrection(ops: seq<Op>, key: Key, n: nat)
    requires n <= |ops| && Clean(ops, key)
    ensures FirstTerminalCorrection(ops, key, n).None?
  {
    if n > 0 { NoTerminalCorrection(ops, key, n - 1); }
  }

  lemma OwnChangeView(db: Db, change: Change, key: Key)
    requires Clean(db.ops, key) && (change.TxUpsert? || change.TxDelete?) && change.key == key
    ensures TxView(ApplyToTx(db, key, change), key) == TxStep(TxView(db, key), change, key)
  {
    NoTerminalCorrection(db.ops, key, |db.ops|);
    assert DropRefused(db, key) == db;
    var ops := ResolveTerminal(db.ops, key);
    assert Clean(ops, key);
    assert Recomputed(ops, key) == SyncSynced;
  }

  lemma OtherChangeView(db: Db, next: Db, own: Key, key: Key)
    requires PulledInto(db, next, own) && own != key
    ensures TxView(next, key) == TxView(db, key)
  {
    if key in db.txs {
      var at := (key, db.txs[key].revision);
      assert at in next.items <==> at in db.items;
    }
  }

  lemma ChangeKeepsClean(db: Db, change: Change, now: Time, key: Key)
    ensures Clean(db.ops, key) ==> Clean(ApplyChange(db, change, now).ops, key)
    ensures Settled(db.ops, key) ==> Settled(ApplyChange(db, change, now).ops, key)
  {
    ApplyChangeOps(db, change, now);
  }

  lemma ChangeView(db: Db, change: Change, now: Time, key: Key)
    requires Clean(db.ops, key)
    ensures var next := ApplyChange(db, change, now);
      Clean(next.ops, key) && TxView(next, key) == TxStep(TxView(db, key), change, key)
  {
    ChangeKeepsClean(db, change, now, key);
    assert !QuarantinedKey(db.ops, key);
    if !change.TxUpsert? && !change.TxDelete? {
      SideChangeView(db, change, now, key);
    } else if change.key == key {
      OwnChangeView(db, change, key);
    } else if !QuarantinedKey(db.ops, change.key) {
      ApplyToTxFrame(db, change.key, change);
      OtherChangeView(db, ApplyToTx(db, change.key, change), change.key, key);
    }
  }

  lemma SideChangeView(db: Db, change: Change, now: Time, key: Key)
    requires !QuarantinedKey(db.ops, key) && !change.TxUpsert? && !change.TxDelete?
    ensures TxView(ApplyChange(db, change, now), key) == TxStep(TxView(db, key), change, key)
  {
  }

  lemma PackageChangeView(db: Db, change: Change, now: Time, id: string)
    ensures PackageView(ApplyChange(db, change, now), id) == PackageStep(PackageView(db, id), change, id)
  {
    if change.TxUpsert? || change.TxDelete? { ApplyToTxFrame(db, change.key, change); }
  }

  lemma {:induction false} PageView(db: Db, entries: seq<Entry>, now: Time, key: Key)
    requires Clean(db.ops, key)
    ensures Clean(ApplyChanges(db, Changes(entries), now).ops, key)
    ensures TxView(ApplyChanges(db, Changes(entries), now), key) == FoldTx(TxView(db, key), entries, key)
    decreases |entries|
  {
    if entries != [] {
      var changes, head := Changes(entries), entries[0].change;
      ChangeView(db, head, now, key);
      assert changes[1..] == Changes(entries[1..]);
      PageView(ApplyChange(db, head, now), entries[1..], now, key);
      FoldTxSplit(TxView(db, key), [entries[0]], entries[1..], key);
      assert entries == [entries[0]] + entries[1..];
      assert [entries[0]][..0] == [];
      assert FoldTx(TxView(db, key), [entries[0]], key) == TxStep(TxView(db, key), head, key);
    }
  }

  lemma {:induction false} PagePackageView(db: Db, entries: seq<Entry>, now: Time, id: string)
    ensures PackageView(ApplyChanges(db, Changes(entries), now), id) == FoldPackage(PackageView(db, id), entries, id)
    decreases |entries|
  {
    if entries != [] {
      var changes, head := Changes(entries), entries[0].change;
      PackageChangeView(db, head, now, id);
      assert changes[1..] == Changes(entries[1..]);
      PagePackageView(ApplyChange(db, head, now), entries[1..], now, id);
      FoldPackageSplit(PackageView(db, id), [entries[0]], entries[1..], id);
      assert entries == [entries[0]] + entries[1..];
      assert [entries[0]][..0] == [];
      assert FoldPackage(PackageView(db, id), [entries[0]], id) == PackageStep(PackageView(db, id), head, id);
    }
  }

  // ----- other steps leave the view alone -----

  lemma EditKeepsView(db: Db, edit: Edit, key: Key)
    requires ApplyEdit(db, edit).Committed? && Clean(db.ops, key)
    requires Unedited(db.ops, ApplyEdit(db, edit).db.ops, key)
    ensures TxView(ApplyEdit(db, edit).db, key) == TxView(db, key) && Clean(ApplyEdit(db, edit).db.ops, key)
  {
    var next := ApplyEdit(db, edit).db;
    EditsAppend(db, edit);
    assert |next.ops| > |db.ops| ==> next.ops[|db.ops|].key != key;
  }

  lemma MarkKeepsView(db: Db, i: OpId, result: MarkResult, now: Time, key: Key)
    requires i < |db.ops| && db.ops[i].key != key && Clean(db.ops, key)
    ensures TxView(Mark(db, i, result, now), key) == TxView(db, key) && Clean(Mark(db, i, result, now).ops, key)
  {
    MarkWritesRows(db, i, result, now);
  }

  lemma DiscardKeepsView(db: Db, i: OpId, now: Time, key: Key)
    requires Discard(db, i, now).Committed? && Clean(db.ops, key)
    ensures TxView(Discard(db, i, now).db, key) == TxView(db, key) && Clean(Discard(db, i, now).db.ops, key)
  {
    DiscardFrame(db, i, now);
    ShapedDiscardView(db, Discard(db, i, now).db, i, key);
  }

  lemma ShapedDiscardView(db: Db, next: Db, i: OpId, key: Key)
    requires DiscardShape(db, next, i) && Clean(db.ops, key)
    ensures TxView(next, key) == TxView(db, key) && Clean(next.ops, key)
  {
    if next != db && key in db.txs {
      var at := (key, db.txs[key].revision);
      assert at in next.items <==> at in db.items;
    }
  }

  lemma ResolveKeepsView(db: Db, id: nat, shown: ConflictRow, resolution: Resolution, signing: Signing, key: Key)
    requires Resolve(db, id, shown, resolution, signing).Committed? && shown.key != key
    ensures TxView(Resolve(db, id, shown, resolution, signing).db, key) == TxView(db, key)
  {
  }

  lemma ResolveKeepsClean(db: Db, id: nat, shown: ConflictRow, resolution: Resolution, signing: Signing, key: Key)
    requires Resolve(db, id, shown, resolution, signing).Committed? && Clean(db.ops, key)
    requires Unedited(db.ops, Resolve(db, id, shown, resolution, signing).db.ops, key)
    ensures shown.key != key && Clean(Resolve(db, id, shown, resolution, signing).db.ops, key)
  {
    ResolveOps(db, id, shown, resolution, signing);
    assert db.ops[ConflictSource(db.ops, shown.key, 0).value].state == Conflict;
  }

  /** A step that is no page and adds no operation leaves a clean transaction as it is. */
  lemma StepKeepsView(d: Device, step: Step, key: Key)
    requires Ordered(d) && !step.DoPullPage? && Clean(d.db.ops, key) && Unedited(d.db.ops, Next(d, step).db.ops, key)
    ensures TxView(Next(d, step).db, key) == TxView(d.db, key) && Clean(Next(d, step).db.ops, key)
  {
    var db := d.db;
    if step.DoEdit? {
      if ApplyEdit(db, step.edit).Committed? { EditKeepsView(db, step.edit, key); }
    } else if step.DoMark? {
      if step.op in d.inFlight { MarkKeepsView(db, step.op, Interpret(db, step.op, step.answer), step.now, key); }
    } else if step.DoDiscard? {
      if Discard(db, step.op, step.now).Committed? { DiscardKeepsView(db, step.op, step.now, key); }
    } else if step.DoResolve? {
      if Resolve(db, step.id, step.shown, step.resolution, step.signing).Committed? {
        ResolveKeepsClean(db, step.id, step.shown, step.resolution, step.signing, key);
        ResolveKeepsView(db, step.id, step.shown, step.resolution, step.signing, key);
      }
    }
  }

  predicate Stores(step: Step, id: string) { step.DoStorePackage? && step.packageId == id }

  /** Only pages and a list from the server write packages. */
  lemma StepKeepsPackage(d: Device, step: Step, id: string)
    requires !step.DoPullPage? && !Stores(step, id)
    ensures PackageView(Next(d, step).db, id) == PackageView(d.db, id)
  {
    if step.DoEdit? { EditKeepsCursor(d.db, step.edit); }
    else if step.DoMark? {
      if step.op < |d.db.ops| { MarkKeepsCursor(d.db, step.op, Interpret(d.db, step.op, step.answer), step.now); }
    }
    else if step.DoDiscard? { DiscardKeepsCursor(d.db, step.op, step.now); }
    else if step.DoResolve? { ResolveKeepsCursor(d.db, step.id, step.shown, step.resolution, step.signing); }
  }

  lemma StoredGrows(d: Device, step: Step)
    ensures Next(d, step).stored == d.stored + if step.DoStorePackage? then {step.packageId} else {}
  {
  }

  lemma NotStored(d: Device, step: Step, id: string)
    requires id !in Next(d, step).stored
    ensures id !in d.stored && !Stores(step, id)
  {
    StoredGrows(d, step);
  }

  // ----- the invariant -----

  /** Finishing the pull from row `q` gives the fold of all rows ever reached. */
  ghost predicate TxFinishes(d: Device, q: nat, key: Key) {
    q <= d.reached <= |d.log|
      && FoldTx(TxView(d.db, key), d.log[q..d.reached], key) == FoldTx(None, d.log[..d.reached], key)
  }

  ghost predicate PackageFinishes(d: Device, q: nat, id: string) {
    q <= d.reached <= |d.log|
      && FoldPackage(PackageView(d.db, id), d.log[q..d.reached], id) == FoldPackage(None, d.log[..d.reached], id)
  }

  ghost predicate Converging(d: Device) {
    && CursorsKnown(d)
    && (forall key :: NoOps(d.db.ops, key) ==> TxFinishes(d, Position(d), key))
    && (forall key :: NoOps(d.db.ops, key) && d.pull.Some? ==> TxFinishes(d, After(d.log, d.pull.value), key))
    && (forall id :: id !in d.stored ==> PackageFinishes(d, Position(d), id))
    && (forall id :: id !in d.stored && d.pull.Some? ==> PackageFinishes(d, After(d.log, d.pull.value), id))
  }

  lemma SliceSplits(log: seq<Entry>, start: nat, mid: nat, end: nat)
    requires start <= mid <= end <= |log|
    ensures log[start..end] == log[start..mid] + log[mid..end]
  {
  }

  /** A page moves the point from which the pull has to be finished. */
  lemma TxPageFinishes(v: Option<Snapshot>, w: Option<Snapshot>, log: seq<Entry>, start: nat, end: nat, reached: nat,
      key: Key)
    requires start <= reached <= |log| && start <= end <= |log|
    requires w == FoldTx(v, log[start..end], key)
    requires FoldTx(v, log[start..reached], key) == FoldTx(None, log[..reached], key)
    ensures var far := if end > reached then end else reached;
      FoldTx(w, log[end..far], key) == FoldTx(None, log[..far], key)
  {
    if end <= reached {
      SliceSplits(log, start, end, reached);
      FoldTxSplit(v, log[start..end], log[end..reached], key);
    } else {
      SliceSplits(log, start, reached, end);
      SliceSplits(log, 0, reached, end);
      FoldTxSplit(v, log[start..reached], log[reached..end], key);
      FoldTxSplit(None, log[..reached], log[reached..end], key);
      assert log[0..reached] == log[..reached] && log[0..end] == log[..end];
    }
  }

  lemma PackagePageFinishes(v: Option<Shown>, w: Option<Shown>, log: seq<Entry>, start: nat, end: nat, reached: nat,
      id: string)
    requires start <= reached <= |log| && start <= end <= |log|
    requires w == FoldPackage(v, log[start..end], id)
    requires FoldPackage(v, log[start..reached], id) == FoldPackage(None, log[..reached], id)
    ensures var far := if end > reached then end else reached;
      FoldPackage(w, log[end..far], id) == FoldPackage(None, log[..far], id)
  {
    if end <= reached {
      SliceSplits(log, start, end, reached);
      FoldPackageSplit(v, log[start..end], log[end..reached], id);
    } else {
      SliceSplits(log, start, reached, end);
      SliceSplits(log, 0, reached, end);
      FoldPackageSplit(v, log[start..reached], log[reached..end], id);
      FoldPackageSplit(None, log[..reached], log[reached..end], id);
      assert log[0..reached] == log[..reached] && log[0..end] == log[..end];
    }
  }

  lemma PageMoves(d: Device, limit: nat, now: Time)
    requires d.pull.Some?
    ensures var next, page := Next(d, DoPullPage(limit, now)), PullPage(d.log, d.pull.value, limit);
      && next.log == d.log && next.reached == (if page.end > d.reached then page.end else d.reached)
      && next.stored == d.stored
  {
  }

  lemma TxPageShown(d: Device, limit: nat, now: Time, key: Key)
    requires d.pull.Some? && Clean(d.db.ops, key)
    ensures var page, next := PullPage(d.log, d.pull.value, limit), Next(d, DoPullPage(limit, now)).db;
      Clean(next.ops, key) && TxView(next, key) == FoldTx(TxView(d.db, key), d.log[page.start..page.end], key)
  {
    var page := PullPage(d.log, d.pull.value, limit);
    PageView(d.db, d.log[page.start..page.end], now, key);
  }

  lemma PackagePageShown(d: Device, limit: nat, now: Time, id: string)
    requires d.pull.Some?
    ensures var page := PullPage(d.log, d.pull.value, limit);
      PackageView(Next(d, DoPullPage(limit, now)).db, id)
        == FoldPackage(PackageView(d.db, id), d.log[page.start..page.end], id)
  {
    var page := PullPage(d.log, d.pull.value, limit);
    PagePackageView(d.db, d.log[page.start..page.end], now, id);
  }

  lemma TxPageConverges(d: Device, next: Device, page: Page, key: Key)
    requires TxFinishes(d, page.start, key) && page.start <= page.end <= |d.log|
    requires next.log == d.log && next.reached == if page.end > d.reached then page.end else d.reached
    requires TxView(next.db, key) == FoldTx(TxView(d.db, key), d.log[page.start..page.end], key)
    ensures TxFinishes(next, page.end, key)
  {
    TxPageFinishes(TxView(d.db, key), TxView(next.db, key), d.log, page.start, page.end, d.reached, key);
  }

  lemma PackagePageConverges(d: Device, next: Device, page: Page, id: string)
    requires PackageFinishes(d, page.start, id) && page.start <= page.end <= |d.log|
    requires next.log == d.log && next.reached == if page.end > d.reached then page.end else d.reached
    requires PackageView(next.db, id) == FoldPackage(PackageView(d.db, id), d.log[page.start..page.end], id)
    ensures PackageFinishes(next, page.end, id)
  {
    PackagePageFinishes(PackageView(d.db, id), PackageView(next.db, id), d.log, page.start, page.end, d.reached, id);
  }

  lemma PageConverges(d: Device, limit: nat, now: Time)
    requires Ordered(d) && Converging(d) && d.pull.Some?
    ensures Converging(Next(d, DoPullPage(limit, now)))
  {
    var next := Next(d, DoPullPage(limit, now));
    var page := PullPage(d.log, d.pull.value, limit);
    StepKeepsCursors(d, DoPullPage(limit, now));
    PageEnds(d, limit, now);
    PageMoves(d, limit, now);
    forall key | NoOps(next.db.ops, key) ensures TxFinishes(next, page.end, key) {
      NoOpsBefore(d, DoPullPage(limit, now), key);
      TxPageShown(d, limit, now, key);
      TxPageConverges(d, next, page, key);
    }
    forall id | id !in next.stored ensures PackageFinishes(next, page.end, id) {
      PackagePageShown(d, limit, now, id);
      PackagePageConverges(d, next, page, id);
    }
  }

  lemma NoOpsBefore(d: Device, step: Step, key: Key)
    requires Ordered(d) && NoOps(Next(d, step).db.ops, key)
    ensures NoOps(d.db.ops, key)
  {
    StepKeepsOrder(d, step);
    forall i | 0 <= i < |d.db.ops| ensures d.db.ops[i].key != key {
      assert Next(d, step).db.ops[i].key == d.db.ops[i].key;
    }
  }

  /** After a step that is no page, the pull finishes from the same row, and also from row 0. */
  lemma OtherStepFinishes(d: Device, step: Step, q: nat, key: Key)
    requires Ordered(d) && Converging(d) && !step.DoPullPage? && NoOps(Next(d, step).db.ops, key)
      && TxFinishes(d, q, key)
    ensures TxFinishes(Next(d, step), q, key) && TxFinishes(Next(d, step), 0, key)
  {
    var next := Next(d, step);
    NoOpsBefore(d, step, key);
    StepKeepsView(d, step, key);
    CursorMoves(d, step);
    assert next.log[q..d.reached] == d.log[q..d.reached] && next.log[..d.reached] == d.log[..d.reached];
    TxRestartAbsorbed(TxView(d.db, key), d.log, q, d.reached, key);
    assert next.log[0..d.reached] == d.log[..d.reached];
  }

  lemma OtherStepFinishesPackage(d: Device, step: Step, q: nat, id: string)
    requires Converging(d) && !step.DoPullPage? && !Stores(step, id) && PackageFinishes(d, q, id)
    ensures PackageFinishes(Next(d, step), q, id) && PackageFinishes(Next(d, step), 0, id)
  {
    var next := Next(d, step);
    StepKeepsPackage(d, step, id);
    CursorMoves(d, step);
    assert next.log[q..d.reached] == d.log[q..d.reached] && next.log[..d.reached] == d.log[..d.reached];
    PackageRestartAbsorbed(PackageView(d.db, id), d.log, q, d.reached, id);
    assert next.log[0..d.reached] == d.log[..d.reached];
  }

  /** Where the cursors stand after a step that is no page: where one of them stood, or at the start. */
  lemma PositionsAfter(d: Device, step: Step)
    requires CursorsKnown(d) && !step.DoPullPage?
    ensures var next := Next(d, step);
      && (Position(next) == Position(d) || Position(next) == 0
          || (d.pull.Some? && Position(next) == After(d.log, d.pull.value)))
      && (next.pull.Some? ==> After(next.log, next.pull.value) == Position(d)
                              || (d.pull.Some? && After(next.log, next.pull.value) == After(d.log, d.pull.value)))
  {
    var next := Next(d, step);
    StepKeepsCursors(d, step);
    CursorMoves(d, step);
    ZeroIsStart(next.log);
    if next.log != d.log { LogGrows(d, step.entry); }
  }

  lemma StepConverges(d: Device, step: Step)
    requires Ordered(d) && Converging(d)
    ensures Converging(Next(d, step))
  {
    var next := Next(d, step);
    if step.DoPullPage? {
      if d.pull.Some? { PageConverges(d, step.limit, step.now); }
    } else {
      StepKeepsCursors(d, step);
      PositionsAfter(d, step);
      forall key | NoOps(next.db.ops, key)
        ensures TxFinishes(next, Position(next), key)
          && (next.pull.Some? ==> TxFinishes(next, After(next.log, next.pull.value), key))
      {
        NoOpsBefore(d, step, key);
        OtherStepFinishes(d, step, Position(d), key);
        if d.pull.Some? { OtherStepFinishes(d, step, After(d.log, d.pull.value), key); }
      }
      forall id | id !in next.stored
        ensures PackageFinishes(next, Position(next), id)
          && (next.pull.Some? ==> PackageFinishes(next, After(next.log, next.pull.value), id))
      {
        NotStored(d, step, id);
        OtherStepFinishesPackage(d, step, Position(d), id);
        if d.pull.Some? { OtherStepFinishesPackage(d, step, After(d.log, d.pull.value), id); }
      }
    }
  }

  lemma {:induction false} RunsConverge(steps: seq<Step>)
    ensures Converging(Run(NEW_DEVICE, steps))
    decreases |steps|
  {
    if steps != [] {
      RunsConverge(steps[..|steps| - 1]);
      RunsAreOrdered(steps[..|steps| - 1]);
      StepConverges(Run(NEW_DEVICE, steps[..|steps| - 1]), steps[|steps| - 1]);
    }
  }

  // ----- theorems -----

  /** In every reachable device whose stored cursor is as far as it ever was, each transaction
      without local operations and each package that only pulls have written shows exactly the fold of
      the log up to the cursor. */
  lemma CaughtUpViewIsFold(steps: seq<Step>)
    requires var d := Run(NEW_DEVICE, steps); Position(d) == d.reached
    ensures var d := Run(NEW_DEVICE, steps); var n := Position(d);
      && (forall key :: NoOps(d.db.ops, key) ==> TxView(d.db, key) == FoldTx(None, d.log[..n], key))
      && (forall id :: id !in d.stored ==> PackageView(d.db, id) == FoldPackage(None, d.log[..n], id))
  {
    var d := Run(NEW_DEVICE, steps);
    RunsConverge(steps);
    assert d.log[d.reached..d.reached] == [];
    forall key | NoOps(d.db.ops, key) ensures TxView(d.db, key) == FoldTx(None, d.log[..d.reached], key) {
      assert TxFinishes(d, Position(d), key);
    }
    forall id | id !in d.stored ensures PackageView(d.db, id) == FoldPackage(None, d.log[..d.reached], id) {
      assert PackageFinishes(d, Position(d), id);
    }
  }

  /** Whatever pages, crashes, restarts and rewinds two runs took: once both have caught up with
      the same log they show the same. */
  lemma SameLogSameView(steps: seq<Step>, others: seq<Step>, key: Key, id: string)
    requires var d := Run(NEW_DEVICE, steps); var e := Run(NEW_DEVICE, others);
      && d.log == e.log && Position(d) == |d.log| && Position(e) == |e.log|
      && NoOps(d.db.ops, key) && NoOps(e.db.ops, key) && id !in d.stored + e.stored
    ensures var d := Run(NEW_DEVICE, steps); var e := Run(NEW_DEVICE, others);
      TxView(d.db, key) == TxView(e.db, key) && PackageView(d.db, id) == PackageView(e.db, id)
  {
    RunsKnowCursors(steps);
    RunsKnowCursors(others);
    CaughtUpViewIsFold(steps);
    CaughtUpViewIsFold(others);
  }

  // ----- at every committed cursor -----

  /** The rows of `key` are the log up to row `q` folded onto some earlier state of them. */
  ghost predicate TxFoldsTo(d: Device, q: nat, key: Key) {
    q <= |d.log| && exists v :: TxView(d.db, key) == FoldTx(v, d.log[..q], key)
  }

  ghost predicate PackageFoldsTo(d: Device, q: nat, id: string) {
    q <= |d.log| && exists v :: PackageView(d.db, id) == FoldPackage(v, d.log[..q], id)
  }

  ghost predicate TxFolded(d: Device, key: Key) {
    && TxFoldsTo(d, Position(d), key)
    && (d.pull.Some? ==> TxFoldsTo(d, After(d.log, d.pull.value), key))
  }

  ghost predicate PackageFolded(d: Device, id: string) {
    && PackageFoldsTo(d, Position(d), id)
    && (d.pull.Some? ==> PackageFoldsTo(d, After(d.log, d.pull.value), id))
  }

  lemma TxFoldMoves(v: Option<Snapshot>, log: seq<Entry>, start: nat, end: nat, key: Key)
    requires start <= end <= |log|
    ensures FoldTx(FoldTx(v, log[..start], key), log[start..end], key) == FoldTx(v, log[..end], key)
  {
    SliceSplits(log, 0, start, end);
    FoldTxSplit(v, log[..start], log[start..end], key);
    assert log[0..start] == log[..start] && log[0..end] == log[..end];
  }

  lemma PackageFoldMoves(v: Option<Shown>, log: seq<Entry>, start: nat, end: nat, id: string)
    requires start <= end <= |log|
    ensures FoldPackage(FoldPackage(v, log[..start], id), log[start..end], id) == FoldPackage(v, log[..end], id)
  {
    SliceSplits(log, 0, start, end);
    FoldPackageSplit(v, log[..start], log[start..end], id);
    assert log[0..start] == log[..start] && log[0..end] == log[..end];
  }

  lemma TxFoldedAtEnd(d: Device, next: Device, page: Page, key: Key)
    requires page.start <= page.end <= |d.log| && TxFoldsTo(d, page.start, key)
    requires TxView(next.db, key) == FoldTx(TxView(d.db, key), d.log[page.start..page.end], key)
    requires next.log == d.log
    ensures TxFoldsTo(next, page.end, key)
  {
    var v :| TxView(d.db, key) == FoldTx(v, d.log[..page.start], key);
    TxFoldMoves(v, d.log, page.start, page.end, key);
  }

  lemma PackageFoldedAtEnd(d: Device, next: Device, page: Page, id: string)
    requires page.start <= page.end <= |d.log| && PackageFoldsTo(d, page.start, id)
    requires PackageView(next.db, id) == FoldPackage(PackageView(d.db, id), d.log[page.start..page.end], id)
    requires next.log == d.log
    ensures PackageFoldsTo(next, page.end, id)
  {
    var v :| PackageView(d.db, id) == FoldPackage(v, d.log[..page.start], id);
    PackageFoldMoves(v, d.log, page.start, page.end, id);
  }

  lemma TxFoldedByPage(d: Device, limit: nat, now: Time, key: Key)
    requires CursorsKnown(d) && d.pull.Some? && Clean(d.db.ops, key) && TxFolded(d, key)
    ensures var next := Next(d, DoPullPage(limit, now)); TxFolded(next, key) && Clean(next.db.ops, key)
  {
    TxPageShown(d, limit, now, key);
    PageEnds(d, limit, now);
    TxFoldedAtEnd(d, Next(d, DoPullPage(limit, now)), PullPage(d.log, d.pull.value, limit), key);
  }

  lemma PackageFoldedByPage(d: Device, limit: nat, now: Time, id: string)
    requires CursorsKnown(d) && d.pull.Some? && PackageFolded(d, id)
    ensures PackageFolded(Next(d, DoPullPage(limit, now)), id)
  {
    PackagePageShown(d, limit, now, id);
    PageEnds(d, limit, now);
    PackageFoldedAtEnd(d, Next(d, DoPullPage(limit, now)), PullPage(d.log, d.pull.value, limit), id);
  }

  lemma TxFoldsFurther(d: Device, next: Device, q: nat, key: Key)
    requires TxView(next.db, key) == TxView(d.db, key) && q <= |d.log| <= |next.log| && next.log[..|d.log|] == d.log
    ensures TxFoldsTo(d, q, key) ==> TxFoldsTo(next, q, key)
    ensures TxFoldsTo(next, 0, key)
  {
    assert next.log[..q] == d.log[..q];
    assert TxView(next.db, key) == FoldTx(TxView(next.db, key), next.log[..0], key);
  }

  lemma PackageFoldsFurther(d: Device, next: Device, q: nat, id: string)
    requires PackageView(next.db, id) == PackageView(d.db, id) && q <= |d.log| <= |next.log|
      && next.log[..|d.log|] == d.log
    ensures PackageFoldsTo(d, q, id) ==> PackageFoldsTo(next, q, id)
    ensures PackageFoldsTo(next, 0, id)
  {
    assert next.log[..q] == d.log[..q];
    assert PackageView(next.db, id) == FoldPackage(PackageView(next.db, id), next.log[..0], id);
  }

  lemma TxFoldedByStep(d: Device, step: Step, key: Key)
    requires Ordered(d) && CursorsKnown(d) && Clean(d.db.ops, key) && TxFolded(d, key)
    requires Unedited(d.db.ops, Next(d, step).db.ops, key)
    ensures TxFolded(Next(d, step), key) && Clean(Next(d, step).db.ops, key)
  {
    if step.DoPullPage? {
      if d.pull.Some? { TxFoldedByPage(d, step.limit, step.now, key); }
    } else {
      StepKeepsView(d, step, key);
      CursorMoves(d, step);
      PositionsAfter(d, step);
      TxFoldsFurther(d, Next(d, step), Position(d), key);
      if d.pull.Some? { TxFoldsFurther(d, Next(d, step), After(d.log, d.pull.value), key); }
    }
  }

  lemma PackageFoldedByStep(d: Device, step: Step, id: string)
    requires CursorsKnown(d) && PackageFolded(d, id) && !Stores(step, id)
    ensures PackageFolded(Next(d, step), id)
  {
    if step.DoPullPage? {
      if d.pull.Some? { PackageFoldedByPage(d, step.limit, step.now, id); }
    } else {
      StepKeepsPackage(d, step, id);
      CursorMoves(d, step);
      PositionsAfter(d, step);
      PackageFoldsFurther(d, Next(d, step), Position(d), id);
      if d.pull.Some? { PackageFoldsFurther(d, Next(d, step), After(d.log, d.pull.value), id); }
    }
  }

  lemma {:induction false} TxFoldedInRun(steps: seq<Step>, key: Key)
    requires NoOps(Run(NEW_DEVICE, steps).db.ops, key)
    ensures TxFolded(Run(NEW_DEVICE, steps), key)
    decreases |steps|
  {
    if steps == [] {
      assert NEW_DEVICE.log[..0] == [] && TxView(NEW_DEVICE.db, key) == FoldTx(None, NEW_DEVICE.log[..0], key);
    } else {
      var before, step := Run(NEW_DEVICE, steps[..|steps| - 1]), steps[|steps| - 1];
      RunsAreOrdered(steps[..|steps| - 1]);
      RunsKnowCursors(steps[..|steps| - 1]);
      NoOpsBefore(before, step, key);
      TxFoldedInRun(steps[..|steps| - 1], key);
      TxFoldedByStep(before, step, key);
    }
  }

  /** From any device on whose packages follow the log, they follow it until a list is stored. */
  lemma {:induction false} PackageFoldedThroughRun(d: Device, steps: seq<Step>, id: string)
    requires CursorsKnown(d) && PackageFolded(d, id) && forall k :: 0 <= k < |steps| ==> !Stores(steps[k], id)
    ensures CursorsKnown(Run(d, steps)) && PackageFolded(Run(d, steps), id)
    decreases |steps|
  {
    if steps != [] {
      PackageFoldedThroughRun(d, steps[..|steps| - 1], id);
      StepKeepsCursors(Run(d, steps[..|steps| - 1]), steps[|steps| - 1]);
      PackageFoldedByStep(Run(d, steps[..|steps| - 1]), steps[|steps| - 1], id);
    }
  }

  lemma {:induction false} NeverStored(steps: seq<Step>, id: string)
    requires id !in Run(NEW_DEVICE, steps).stored
    ensures forall k :: 0 <= k < |steps| ==> !Stores(steps[k], id)
    decreases |steps|
  {
    if steps != [] {
      NotStored(Run(NEW_DEVICE, steps[..|steps| - 1]), steps[|steps| - 1], id);
      NeverStored(steps[..|steps| - 1], id);
      forall k | 0 <= k < |steps| ensures !Stores(steps[k], id) {
        if k < |steps| - 1 { assert steps[..|steps| - 1][k] == steps[k]; }
      }
    }
  }

  lemma FoldedExactly(d: Device, key: Key)
    requires TxFolded(d, key)
    ensures var n := Position(d);
      TxView(d.db, key) == FoldTx(None, d.log[..n], key) <==> key !in d.db.txs || Upserts(d.log[..n], key)
  {
    var n := Position(d);
    var v :| TxView(d.db, key) == FoldTx(v, d.log[..n], key);
    FoldTxForgets(v, None, d.log[..n], key);
    FoldTxForgets(None, v, d.log[..n], key);
  }

  lemma PackageFoldedExactly(d: Device, id: string)
    requires PackageFolded(d, id)
    ensures var n := Position(d);
      PackageView(d.db, id) == FoldPackage(None, d.log[..n], id)
      <==> Below(PackageView(d.db, id), TopRevision(d.log[..n], id))
  {
    var n := Position(d);
    var v :| PackageView(d.db, id) == FoldPackage(v, d.log[..n], id);
    FoldPackageRevision(v, d.log[..n], id);
    FoldPackageRevision(None, d.log[..n], id);
    if Below(v, TopRevision(d.log[..n], id)) { FoldPackageForgets(v, d.log[..n], id); }
  }

  /** In every reachable device, caught up or in the middle of a rewind: a transaction without local
      operations shows the fold of the log up to the stored cursor exactly if it is not there at all
      or one of the covered log rows has put it there. */
  lemma TxViewIsFoldExactly(steps: seq<Step>, key: Key)
    requires NoOps(Run(NEW_DEVICE, steps).db.ops, key)
    ensures var d := Run(NEW_DEVICE, steps); var n := Position(d);
      TxView(d.db, key) == FoldTx(None, d.log[..n], key) <==> key !in d.db.txs || Upserts(d.log[..n], key)
  {
    TxFoldedInRun(steps, key);
    FoldedExactly(Run(NEW_DEVICE, steps), key);
  }

  /** A package that only pulls have written shows that fold exactly if the covered rows hold a revision
      as high as the one shown. */
  lemma PackageViewIsFoldExactly(steps: seq<Step>, id: string)
    requires id !in Run(NEW_DEVICE, steps).stored
    ensures var d := Run(NEW_DEVICE, steps); var n := Position(d);
      PackageView(d.db, id) == FoldPackage(None, d.log[..n], id)
      <==> Below(PackageView(d.db, id), TopRevision(d.log[..n], id))
  {
    NeverStored(steps, id);
    assert NEW_DEVICE.log[..0] == [] && PackageView(NEW_DEVICE.db, id) == FoldPackage(None, NEW_DEVICE.log[..0], id);
    PackageFoldedThroughRun(NEW_DEVICE, steps, id);
    PackageFoldedExactly(Run(NEW_DEVICE, steps), id);
  }

  // ----- transactions that were edited here -----

  lemma SettledUpsert(db: Db, change: Change, now: Time, key: Key)
    requires Settled(db.ops, key) && change.TxUpsert? && change.key == key
    ensures var next := ApplyChange(db, change, now);
      Clean(next.ops, key) && TxView(next, key) == Some(WithSync(change.snapshot, SyncSynced))
  {
    assert !QuarantinedKey(db.ops, key);
    var ops := ResolveTerminal(db.ops, key);
    assert Clean(ops, key);
    assert Recomputed(ops, key) == SyncSynced;
  }

  lemma LaterUpsert(entries: seq<Entry>, key: Key)
    requires Upserts(entries, key) && !(entries[0].change.TxUpsert? && entries[0].change.key == key)
    ensures Upserts(entries[1..], key)
  {
    var i :| 0 <= i < |entries| && entries[i].change.TxUpsert? && entries[i].change.key == key;
    assert entries[1..][i - 1] == entries[i];
  }

  /** A page that upserts a transaction whose operations are all settled and free shows it as the fold
      of the page, whatever it was before. */
  lemma {:induction false} SettledPageView(db: Db, entries: seq<Entry>, now: Time, key: Key)
    requires Settled(db.ops, key) && Upserts(entries, key)
    ensures var next := ApplyChanges(db, Changes(entries), now);
      Clean(next.ops, key) && TxView(next, key) == FoldTx(None, entries, key)
    decreases |entries|
  {
    var changes, head, rest := Changes(entries), entries[0].change, entries[1..];
    var next := ApplyChange(db, head, now);
    assert changes[1..] == Changes(rest) && entries == [entries[0]] + rest && [entries[0]][..0] == [];
    FoldTxSplit(None, [entries[0]], rest, key);
    assert FoldTx(None, [entries[0]], key) == TxStep(None, head, key);
    if head.TxUpsert? && head.key == key {
      SettledUpsert(db, head, now, key);
      PageView(next, rest, now, key);
    } else {
      LaterUpsert(entries, key);
      ChangeKeepsClean(db, head, now, key);
      SettledPageView(next, rest, now, key);
      FoldTxForgets(TxStep(None, head, key), None, rest, key);
    }
  }

  lemma UpsertPageApplied(db: Db, entries: seq<Entry>, cursor: nat, now: Time, key: Key)
    requires Settled(db.ops, key) && Upserts(entries, key)
    ensures var next := ApplyPage(db, Changes(entries), cursor, now);
      Clean(next.ops, key) && TxView(next, key) == FoldTx(None, entries, key)
  {
    SettledPageView(db, entries, now, key);
  }

  lemma UpsertPageShown(d: Device, limit: nat, now: Time, key: Key)
    requires d.pull.Some? && Settled(d.db.ops, key)
    requires var page := PullPage(d.log, d.pull.value, limit); Upserts(d.log[page.start..page.end], key)
    ensures var page, next := PullPage(d.log, d.pull.value, limit), Next(d, DoPullPage(limit, now)).db;
      Clean(next.ops, key) && TxView(next, key) == FoldTx(None, d.log[page.start..page.end], key)
  {
    var page := PullPage(d.log, d.pull.value, limit);
    UpsertPageApplied(d.db, d.log[page.start..page.end], page.next, now, key);
  }

  lemma UpsertedSliceFolds(d: Device, start: nat, end: nat, key: Key)
    requires start <= end <= |d.log| && Upserts(d.log[start..end], key)
    requires TxView(d.db, key) == FoldTx(None, d.log[start..end], key)
    ensures TxFoldsTo(d, end, key)
  {
    FoldTxForgets(None, FoldTx(None, d.log[..start], key), d.log[start..end], key);
    TxFoldMoves(None, d.log, start, end, key);
  }

  lemma UpsertPageFolds(d: Device, limit: nat, now: Time, key: Key)
    requires CursorsKnown(d) && d.pull.Some? && Settled(d.db.ops, key)
    requires var page := PullPage(d.log, d.pull.value, limit); Upserts(d.log[page.start..page.end], key)
    ensures var next := Next(d, DoPullPage(limit, now)); TxFolded(next, key) && Clean(next.db.ops, key)
  {
    var page, next := PullPage(d.log, d.pull.value, limit), Next(d, DoPullPage(limit, now));
    UpsertPageShown(d, limit, now, key);
    PageEnds(d, limit, now);
    UpsertedSliceFolds(next, page.start, page.end, key);
  }

  lemma {:induction false} EvidenceInRun(d: Device, steps: seq<Step>)
    requires Ordered(d)
    ensures Ordered(Run(d, steps)) && EvidenceKept(d.db.ops, Run(d, steps).db.ops)
    decreases |steps|
  {
    if steps != [] {
      EvidenceInRun(d, steps[..|steps| - 1]);
      StepKeepsOrder(Run(d, steps[..|steps| - 1]), steps[|steps| - 1]);
    }
  }

  lemma UneditedBefore(ops: seq<Op>, mid: seq<Op>, later: seq<Op>, key: Key)
    requires EvidenceKept(ops, mid) && EvidenceKept(mid, later) && Unedited(ops, later, key)
    ensures Unedited(ops, mid, key) && Unedited(mid, later, key) && EvidenceKept(ops, later)
  {
  }

  lemma {:induction false} FoldedThroughRun(d: Device, steps: seq<Step>, key: Key)
    requires Ordered(d) && CursorsKnown(d) && Clean(d.db.ops, key) && TxFolded(d, key)
    requires Unedited(d.db.ops, Run(d, steps).db.ops, key)
    ensures var later := Run(d, steps);
      && Ordered(later) && CursorsKnown(later) && EvidenceKept(d.db.ops, later.db.ops)
      && Clean(later.db.ops, key) && TxFolded(later, key)
    decreases |steps|
  {
    if steps != [] {
      var mid, step := Run(d, steps[..|steps| - 1]), steps[|steps| - 1];
      EvidenceInRun(d, steps[..|steps| - 1]);
      StepKeepsOrder(mid, step);
      UneditedBefore(d.db.ops, mid.db.ops, Next(mid, step).db.ops, key);
      FoldedThroughRun(d, steps[..|steps| - 1], key);
      StepKeepsCursors(mid, step);
      TxFoldedByStep(mid, step, key);
    }
  }

  /** A transaction that was edited here, with all its operations settled and free, follows the log
      again from the next upsert on: after any run that adds no operation to it, the same exact
      condition holds as for one that was never edited. */
  lemma SettledFollowsFold(before: seq<Step>, limit: nat, now: Time, more: seq<Step>, key: Key)
    requires var d := Run(NEW_DEVICE, before);
      && d.pull.Some? && Settled(d.db.ops, key)
      && var page := PullPage(d.log, d.pull.value, limit);
      && Upserts(d.log[page.start..page.end], key)
      && var next := Next(d, DoPullPage(limit, now));
      && Unedited(next.db.ops, Run(next, more).db.ops, key)
    ensures var last := Run(Next(Run(NEW_DEVICE, before), DoPullPage(limit, now)), more);
      var n := Position(last);
      TxView(last.db, key) == FoldTx(None, last.log[..n], key) <==> key !in last.db.txs || Upserts(last.log[..n], key)
  {
    var d := Run(NEW_DEVICE, before);
    RunsAreOrdered(before);
    RunsKnowCursors(before);
    UpsertPageFolds(d, limit, now, key);
    StepKeepsOrder(d, DoPullPage(limit, now));
    StepKeepsCursors(d, DoPullPage(limit, now));
    FoldedThroughRun(Next(d, DoPullPage(limit, now)), more, key);
    FoldedExactly(Run(Next(d, DoPullPage(limit, now)), more), key);
  }
}
