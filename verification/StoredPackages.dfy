/** Packages that a list from the server writes outside the change log: exactly when, and for how
    long, they show something else than the log. */
module StoredPackages {
  import opened LocalTables
  import opened Repository
  import opened Device
  import opened ServerLog
  import opened Convergence

  // ----- two starts of one fold -----

  /** The row writes the package with a revision as high as both. */
  predicate Overtakes(v: Option<Shown>, w: Option<Shown>, change: Change, id: string) {
    && change.PackageUpsert? && change.id == id
    && (v.Some? ==> change.package.revision >= v.value.revision)
    && (w.Some? ==> change.package.revision >= w.value.revision)
  }

  predicate Overtaken(v: Option<Shown>, w: Option<Shown>, entries: seq<Entry>, id: string) {
    exists i :: 0 <= i < |entries| && Overtakes(v, w, entries[i].change, id)
  }

  predicate Deletes(entries: seq<Entry>, id: string) {
    exists i :: 0 <= i < |entries| && entries[i].change == PackageDelete(id)
  }

  /** The two differ at most in being active or deleted. */
  predicate SameContent(v: Option<Shown>, w: Option<Shown>) {
    v.Some? && w.Some? && v.value.revision == w.value.revision && v.value.content == w.value.content
  }

  predicate Forgotten(v: Option<Shown>, w: Option<Shown>, entries: seq<Entry>, id: string) {
    v == w || Overtaken(v, w, entries, id) || (SameContent(v, w) && Deletes(entries, id))
  }

  lemma OvertakenFirst(v: Option<Shown>, w: Option<Shown>, entries: seq<Entry>, id: string)
    requires entries != []
    ensures Overtaken(v, w, entries, id)
      <==> Overtakes(v, w, entries[0].change, id) || Overtaken(v, w, entries[1..], id)
    ensures Deletes(entries, id) <==> entries[0].change == PackageDelete(id) || Deletes(entries[1..], id)
  {
    assert forall i :: 0 <= i < |entries| - 1 ==> entries[1..][i] == entries[i + 1];
    assert forall i :: 0 < i < |entries| ==> entries[i] == entries[1..][i - 1];
  }

  /** What one row does to the comparison. */
  lemma StepForgets(v: Option<Shown>, w: Option<Shown>, change: Change, id: string)
    ensures var after, other := PackageStep(v, change, id), PackageStep(w, change, id);
      if Overtakes(v, w, change, id) || (SameContent(v, w) && change == PackageDelete(id)) then after == other
      else
        && (after == other <==> v == w)
        && (v != w ==> (SameContent(after, other) <==> SameContent(v, w)))
        && (v != w ==> forall c :: Overtakes(after, other, c, id) <==> Overtakes(v, w, c, id))
  {
  }

  lemma FoldHead(v: Option<Shown>, entries: seq<Entry>, id: string)
    requires entries != []
    ensures FoldPackage(v, entries, id) == FoldPackage(PackageStep(v, entries[0].change, id), entries[1..], id)
  {
    assert entries == [entries[0]] + entries[1..] && [entries[0]][..0] == [];
    FoldPackageSplit(v, [entries[0]], entries[1..], id);
    assert FoldPackage(v, [entries[0]], id) == PackageStep(v, entries[0].change, id);
  }

  /** Folding the same rows onto two views gives the same exactly if the views are equal, or one row
      overtakes both, or they differ only in being deleted and one row deletes. */
  lemma {:induction false} FoldsAgreeExactly(v: Option<Shown>, w: Option<Shown>, entries: seq<Entry>, id: string)
    ensures FoldPackage(v, entries, id) == FoldPackage(w, entries, id) <==> Forgotten(v, w, entries, id)
    decreases |entries|
  {
    if entries != [] {
      var head, rest := entries[0].change, entries[1..];
      var after, other := PackageStep(v, head, id), PackageStep(w, head, id);
      FoldHead(v, entries, id);
      FoldHead(w, entries, id);
      StepForgets(v, w, head, id);
      OvertakenFirst(v, w, entries, id);
      FoldsAgreeExactly(after, other, rest, id);
    }
  }

  // ----- pulling on -----

  /** A running pull, if any, stands where the stored cursor does. */
  predicate Aligned(d: Device) { d.pull.Some? ==> d.pull.value == CursorOf(d.db) }

  /** Neither rewound by a release, nor is the package stored. */
  predicate GoesOn(steps: seq<Step>, id: string) {
    forall k :: 0 <= k < |steps| ==> !steps[k].DoRelease? && !Stores(steps[k], id)
  }

  ghost predicate Follows(d: Device, later: Device, id: string) {
    && CursorsKnown(d) && CursorsKnown(later) && Aligned(later)
    && d.log <= later.log && Position(d) <= Position(later)
    && PackageView(later.db, id) == FoldPackage(PackageView(d.db, id), later.log[Position(d)..Position(later)], id)
  }

  lemma FollowsFurther(d: Device, mid: Device, next: Device, end: nat, id: string)
    requires Follows(d, mid, id) && CursorsKnown(next) && Aligned(next) && next.log == mid.log
    requires Position(mid) <= end == Position(next) <= |mid.log|
    requires PackageView(next.db, id) == FoldPackage(PackageView(mid.db, id), mid.log[Position(mid)..end], id)
    ensures Follows(d, next, id)
  {
    SliceSplits(mid.log, Position(d), Position(mid), end);
    FoldPackageSplit(PackageView(d.db, id), mid.log[Position(d)..Position(mid)], mid.log[Position(mid)..end], id);
  }

  lemma PageFollows(d: Device, mid: Device, limit: nat, now: Time, id: string)
    requires Follows(d, mid, id) && mid.pull.Some?
    ensures Follows(d, Next(mid, DoPullPage(limit, now)), id)
  {
    var page, next := PullPage(mid.log, mid.pull.value, limit), Next(mid, DoPullPage(limit, now));
    PageStaysAligned(mid, limit, now);
    PackagePageShown(mid, limit, now, id);
    FollowsFurther(d, mid, next, page.end, id);
  }

  lemma PageStaysAligned(d: Device, limit: nat, now: Time)
    requires CursorsKnown(d) && d.pull.Some?
    ensures var next := Next(d, DoPullPage(limit, now));
      CursorsKnown(next) && Aligned(next) && next.log == d.log
        && Position(next) == PullPage(d.log, d.pull.value, limit).end
  {
    StepKeepsCursors(d, DoPullPage(limit, now));
    PageEnds(d, limit, now);
  }

  lemma StaysAligned(d: Device, step: Step)
    requires CursorsKnown(d) && Aligned(d) && !step.DoPullPage? && !step.DoRelease?
    ensures var next := Next(d, step);
      CursorsKnown(next) && Aligned(next) && d.log <= next.log && Position(next) == Position(d)
  {
    StepKeepsCursors(d, step);
    CursorMoves(d, step);
    if Next(d, step).log != d.log { LogGrows(d, step.entry); }
  }

  lemma FollowsStill(d: Device, mid: Device, next: Device, id: string)
    requires Follows(d, mid, id) && CursorsKnown(next) && Aligned(next)
    requires mid.log <= next.log && Position(next) == Position(mid)
    requires PackageView(next.db, id) == PackageView(mid.db, id)
    ensures Follows(d, next, id)
  {
    assert next.log[Position(d)..Position(mid)] == mid.log[Position(d)..Position(mid)];
  }

  lemma OtherStepFollows(d: Device, mid: Device, step: Step, id: string)
    requires Follows(d, mid, id) && !step.DoPullPage? && !step.DoRelease? && !Stores(step, id)
    ensures Follows(d, Next(mid, step), id)
  {
    StaysAligned(mid, step);
    StepKeepsPackage(mid, step, id);
    FollowsStill(d, mid, Next(mid, step), id);
  }

  lemma {:induction false} FollowsThroughRun(d: Device, steps: seq<Step>, id: string)
    requires CursorsKnown(d) && Aligned(d) && GoesOn(steps, id)
    ensures Follows(d, Run(d, steps), id)
    decreases |steps|
  {
    if steps == [] {
      assert d.log[Position(d)..Position(d)] == [];
    } else {
      var mid, step := Run(d, steps[..|steps| - 1]), steps[|steps| - 1];
      FollowsThroughRun(d, steps[..|steps| - 1], id);
      if !step.DoPullPage? {
        OtherStepFollows(d, mid, step, id);
      } else if mid.pull.Some? {
        PageFollows(d, mid, step.limit, step.now, id);
      }
    }
  }

  // ----- theorems -----

  lemma FoldGoesOn(log: seq<Entry>, later: seq<Entry>, start: nat, end: nat, id: string)
    requires log <= later && start <= |log| && start <= end <= |later|
    ensures FoldPackage(None, later[..end], id)
      == FoldPackage(FoldPackage(None, log[..start], id), later[start..end], id)
  {
    PackageFoldMoves(None, later, start, end, id);
    assert later[..start] == log[..start];
  }

  /** A package that shows the fold of the log is written from a list. From then on, until a release
      rewinds the cursor or a list is stored again, it shows that fold exactly if the list changed
      nothing, or a pulled row writes it with a revision as high as both, or the list changed only
      whether it is deleted and a pulled row deletes it. */
  lemma StoredPackageIsFoldExactly(before: seq<Step>, id: string, package: Package, more: seq<Step>)
    requires var d := Run(NEW_DEVICE, before);
      Aligned(d) && PackageView(d.db, id) == FoldPackage(None, d.log[..Position(d)], id)
    requires GoesOn(more, id)
    ensures var d := Run(NEW_DEVICE, before);
      var s := Next(d, DoStorePackage(id, package));
      var last := Run(s, more);
      && Position(d) <= Position(last) <= |last.log|
      && (PackageView(last.db, id) == FoldPackage(None, last.log[..Position(last)], id)
          <==> Forgotten(PackageView(d.db, id), PackageView(s.db, id), last.log[Position(d)..Position(last)], id))
  {
    var d := Run(NEW_DEVICE, before);
    var s := Next(d, DoStorePackage(id, package));
    var last := Run(s, more);
    RunsKnowCursors(before);
    StepKeepsCursors(d, DoStorePackage(id, package));
    FollowsThroughRun(s, more, id);
    FoldGoesOn(d.log, last.log, Position(d), Position(last), id);
    FoldsAgreeExactly(PackageView(d.db, id), PackageView(s.db, id), last.log[Position(d)..Position(last)], id);
  }

  /** A rewind heals a stored package: from a device whose cursors stand at the start, whatever was
      stored before, the condition is that of a package that only pulls have written. */
  lemma RewoundPackageIsFoldExactly(before: seq<Step>, more: seq<Step>, id: string)
    requires var d := Run(NEW_DEVICE, before); d.db.cursor.None? && d.pull.None?
    requires forall k :: 0 <= k < |more| ==> !Stores(more[k], id)
    ensures var last := Run(Run(NEW_DEVICE, before), more); var n := Position(last);
      PackageView(last.db, id) == FoldPackage(None, last.log[..n], id)
      <==> Below(PackageView(last.db, id), TopRevision(last.log[..n], id))
  {
    var d := Run(NEW_DEVICE, before);
    RunsKnowCursors(before);
    ZeroIsStart(d.log);
    assert PackageView(d.db, id) == FoldPackage(PackageView(d.db, id), d.log[..0], id);
    PackageFoldedThroughRun(d, more, id);
    PackageFoldedExactly(Run(d, more), id);
  }
}
