/** What a pull skips for quarantined transactions, and exactly when it is fetched again later. */
module Coverage {
  import opened LocalTables
  import opened Repository
  import opened Device
  import opened Quarantine
  import opened ServerLog

  // ----- what a page writes -----

  /** The change is carried out on its transaction (or on whatever else it is about). */
  ghost predicate Written(db: Db, next: Db, change: Change, now: Time) {
    match change
    case TxUpsert(key, _) => next == ApplyToTx(db, key, change)
    case TxDelete(key, _) => next == ApplyToTx(db, key, change)
    case PrintUpsert(id, payload, target) =>
      next == db.(
        entities := db.entities[("print_attempt", id) := Some(payload)],
        txs := if target.Some? then SetPrint(db.txs, target.value.0, target.value.1) else db.txs)
    case PackageUpsert(id, package) => next == db.(packages := UpsertPackage(db.packages, id, package))
    case PackageDelete(id) => next == db.(packages := DeletePackage(db.packages, id, now))
    case OtherChange(aggregate, id, body) => next == db.(entities := db.entities[(aggregate, id) := body])
  }

  /** The tables inside the page's transaction, after the log rows up to `i`. */
  function DuringPage(d: Device, page: Page, i: nat, now: Time): Db
    requires page.start <= i <= page.end <= |d.log|
  {
    ApplyChanges(d.db, Changes(d.log[page.start..i]), now)
  }

  lemma {:induction false} ApplyLast(db: Db, changes: seq<Change>, last: Change, now: Time)
    ensures ApplyChanges(db, changes + [last], now) == ApplyChange(ApplyChanges(db, changes, now), last, now)
    decreases |changes|
  {
    if changes == [] {
      assert [] + [last] == [last] && [last][1..] == [];
    } else {
      assert (changes + [last])[1..] == changes[1..] + [last];
      ApplyLast(ApplyChange(db, changes[0], now), changes[1..], last, now);
    }
  }

  lemma NextInPage(d: Device, page: Page, i: nat, now: Time)
    requires page.start <= i < page.end <= |d.log|
    ensures DuringPage(d, page, i + 1, now) == ApplyChange(DuringPage(d, page, i, now), d.log[i].change, now)
  {
    ApplyLast(d.db, Changes(d.log[page.start..i]), d.log[i].change, now);
    assert Changes(d.log[page.start..i + 1]) == Changes(d.log[page.start..i]) + [d.log[i].change];
  }

  lemma WrittenUnlessSkipped(db: Db, change: Change, now: Time)
    ensures if Skips(db, change) then Frozen(db, ApplyChange(db, change, now), Target(change).value)
            else Written(db, ApplyChange(db, change, now), change, now)
  {
    if Skips(db, change) { ChangeFreezes(db, change, now, Target(change).value); }
  }

  lemma SameFlagsSameSkips(db: Db, next: Db, change: Change)
    requires FlagsInherited(db, next) && |next.ops| == |db.ops|
    ensures Skips(next, change) <==> Skips(db, change)
  {
  }

  /** Row `i` is carried out inside the page's transaction, unless its transaction is frozen. */
  ghost predicate RowDone(d: Device, page: Page, i: nat, now: Time)
    requires page.start <= i < page.end <= |d.log|
  {
    var before, after, change := DuringPage(d, page, i, now), DuringPage(d, page, i + 1, now), d.log[i].change;
    if Skips(d.db, change) then Frozen(before, after, Target(change).value) else Written(before, after, change, now)
  }

  lemma RowIsDone(d: Device, page: Page, i: nat, now: Time)
    requires page.start <= i < page.end <= |d.log|
    ensures RowDone(d, page, i, now)
  {
    var before := DuringPage(d, page, i, now);
    NextInPage(d, page, i, now);
    WrittenUnlessSkipped(before, d.log[i].change, now);
    ChangesKeepFlags(d.db, Changes(d.log[page.start..i]), now);
    SameFlagsSameSkips(d.db, before, d.log[i].change);
  }

  lemma PageRecords(d: Device, limit: nat, now: Time, i: nat)
    requires d.pull.Some?
    requires var page := PullPage(d.log, d.pull.value, limit); page.start <= i < page.end
    ensures i in Next(d, DoPullPage(limit, now)).applied <==> i in d.applied || !Skips(d.db, d.log[i].change)
  {
  }

  /** A page carries out exactly the rows that it records as applied, one after another in log
      order; the transactions of the others stay frozen. */
  lemma PageWritesApplied(d: Device, limit: nat, now: Time, i: nat)
    requires d.pull.Some?
    requires var page := PullPage(d.log, d.pull.value, limit); page.start <= i < page.end
    ensures var page, next := PullPage(d.log, d.pull.value, limit), Next(d, DoPullPage(limit, now));
      && (i in next.applied <==> i in d.applied || !Skips(d.db, d.log[i].change))
      && RowDone(d, page, i, now)
      && DuringPage(d, page, page.start, now) == d.db
      && DuringPage(d, page, page.end, now).(cursor := Some(page.next)) == next.db
  {
    var page := PullPage(d.log, d.pull.value, limit);
    PageRecords(d, limit, now, i);
    RowIsDone(d, page, i, now);
    assert Changes(d.log[page.start..page.start]) == [];
  }

  /** The device after the first `n` steps. */
  function Reached(steps: seq<Step>, n: nat): Device
    requires n <= |steps|
  {
    Run(NEW_DEVICE, steps[..n])
  }

  lemma ReachedEarlier(steps: seq<Step>, cut: nat, n: nat)
    requires n <= cut <= |steps|
    ensures Reached(steps[..cut], n) == Reached(steps, n)
  {
    assert steps[..cut][..n] == steps[..n];
  }

  /** The step is a page that carries out the change of log row `i`. */
  ghost predicate WritesRow(d: Device, step: Step, i: nat) {
    && step.DoPullPage? && d.pull.Some?
    && var page := PullPage(d.log, d.pull.value, step.limit);
    && page.start <= i < page.end && !Skips(d.db, d.log[i].change) && RowDone(d, page, i, step.now)
  }

  lemma AppliedByStep(d: Device, step: Step, i: nat)
    requires i in Next(d, step).applied && i !in d.applied
    ensures WritesRow(d, step, i)
  {
    if step.DoPullPage? && d.pull.Some? {
      PageWritesApplied(d, step.limit, step.now, i);
    } else {
      CursorMoves(d, step);
    }
  }

  /** Every log row that a run records as applied was carried out by one of its pages. */
  lemma {:induction false} AppliedWereWritten(steps: seq<Step>, i: nat)
    requires i in Run(NEW_DEVICE, steps).applied
    ensures exists k: nat :: k < |steps| && WritesRow(Reached(steps, k), steps[k], i)
    decreases |steps|
  {
    if steps != [] {
      var cut := |steps| - 1;
      if i in Run(NEW_DEVICE, steps[..cut]).applied {
        AppliedWereWritten(steps[..cut], i);
        var k: nat :| k < cut && WritesRow(Reached(steps[..cut], k), steps[..cut][k], i);
        ReachedEarlier(steps, cut, k);
        assert steps[..cut][k] == steps[k];
      } else {
        AppliedByStep(Reached(steps, cut), steps[cut], i);
      }
    }
  }

  // ----- nothing is lost -----

  /** Among the first `n` log rows, only changes of quarantined transactions may be missing. */
  ghost predicate Covered(d: Device, n: nat)
    requires n <= |d.log|
  {
    forall i :: 0 <= i < n && i !in d.applied ==> Skips(d.db, d.log[i].change)
  }

  /** Both the stored cursor and the cursor of a running pull stand behind covered rows. */
  ghost predicate NothingLost(d: Device) {
    && CursorsKnown(d)
    && Covered(d, Position(d))
    && (d.pull.Some? ==> Covered(d, After(d.log, d.pull.value)))
  }

  lemma SkipsStay(d: Device, step: Step, change: Change)
    requires !step.DoRelease? && Skips(d.db, change)
    ensures Skips(Next(d, step).db, change)
  {
    var key := Target(change).value;
    var i :| 0 <= i < |d.db.ops| && d.db.ops[i].key == key && d.db.ops[i].quarantine.Some?;
    if !step.DoQuarantine? { StepFlags(d, step); }
    assert Next(d, step).db.ops[i].key == key && Next(d, step).db.ops[i].quarantine.Some?;
  }

  /** What a page does to the coverage: the rows of the page are applied unless their key is
      frozen, and keys stay frozen. */
  ghost predicate PageCovers(d: Device, next: Device, page: Page) {
    && next.log == d.log && page.start <= page.end <= |d.log|
    && (forall i ::
          0 <= i < |d.log| && (i in d.applied || (page.start <= i < page.end && !Skips(d.db, d.log[i].change))) ==>
          i in next.applied)
    && (forall i :: 0 <= i < |d.log| && Skips(d.db, d.log[i].change) ==> Skips(next.db, d.log[i].change))
  }

  lemma PageCoverage(d: Device, limit: nat, now: Time)
    requires d.pull.Some?
    ensures PageCovers(d, Next(d, DoPullPage(limit, now)), PullPage(d.log, d.pull.value, limit))
  {
    var next := Next(d, DoPullPage(limit, now));
    forall i | 0 <= i < |d.log| && Skips(d.db, d.log[i].change) ensures Skips(next.db, d.log[i].change) {
      SkipsStay(d, DoPullPage(limit, now), d.log[i].change);
    }
  }

  lemma CoverageGrows(d: Device, next: Device, page: Page)
    requires PageCovers(d, next, page) && Covered(d, page.start)
    ensures Covered(next, page.end)
  {
  }

  lemma EarlierRowsUntouched(d: Device, limit: nat, now: Time, i: nat)
    requires d.pull.Some? && i < After(d.log, d.pull.value)
    ensures i in Next(d, DoPullPage(limit, now)).applied <==> i in d.applied
  {
  }

  /** A page goes on from its own cursor: the stored cursor then stands behind covered rows
      exactly if the cursor of the pull did before. */
  lemma PageIsExact(d: Device, limit: nat, now: Time)
    requires CursorsKnown(d) && d.pull.Some?
    ensures var next := Next(d, DoPullPage(limit, now));
      && CursorsKnown(next) && next.pull.Some? && Position(next) == After(next.log, next.pull.value)
      && (Covered(next, Position(next)) <==> Covered(d, After(d.log, d.pull.value)))
  {
    var step, page := DoPullPage(limit, now), PullPage(d.log, d.pull.value, limit);
    var next := Next(d, step);
    StepKeepsCursors(d, step);
    PageEnds(d, limit, now);
    PageCoverage(d, limit, now);
    if Covered(d, page.start) {
      CoverageGrows(d, next, page);
    } else if i :| 0 <= i < page.start && i !in d.applied && !Skips(d.db, d.log[i].change) {
      StillFree(d, step, d.log[i].change);
      EarlierRowsUntouched(d, limit, now, i);
      StillUncovered(next, i, page.end);
    }
  }

  lemma StillUncovered(d: Device, i: nat, n: nat)
    requires i < n <= |d.log| && i !in d.applied && !Skips(d.db, d.log[i].change)
    ensures !Covered(d, n)
  {
  }

  lemma StillFree(d: Device, step: Step, change: Change)
    requires step.DoPullPage? && !Skips(d.db, change)
    ensures !Skips(Next(d, step).db, change)
  {
    StepFlags(d, step);
    if d.pull.Some? {
      var page := PullPage(d.log, d.pull.value, step.limit);
      ChangesKeepFlags(d.db, Changes(d.log[page.start..page.end]), step.now);
    }
  }

  lemma OtherStepLosesNothing(d: Device, step: Step)
    requires NothingLost(d) && !step.DoPullPage? && !step.DoRelease?
    ensures NothingLost(Next(d, step))
  {
    var next := Next(d, step);
    StepKeepsCursors(d, step);
    CursorMoves(d, step);
    if next.log != d.log { LogGrows(d, step.entry); }
    forall i | 0 <= i < |d.log| && Skips(d.db, d.log[i].change) ensures Skips(next.db, d.log[i].change) {
      SkipsStay(d, step, d.log[i].change);
    }
  }

  /** A release either frees nothing, or rewinds the stored cursor to the start. */
  lemma ReleaseRewinds(d: Device, step: Step)
    requires step.DoRelease?
    ensures var next := Next(d, step).db; next.cursor == None || next.ops == d.db.ops
  {
  }

  /** The release frees a transaction of which the running pull has already skipped a change. */
  predicate FreesSkipped(d: Device, step: Step) {
    && step.DoRelease? && d.pull.Some?
    && var freed := ReleaseBatch(d.db, step.rows, step.actor, step.allowed);
    exists i :: 0 <= i < After(d.log, d.pull.value) && i !in d.applied && !Skips(freed, d.log[i].change)
  }

  lemma ReleaseIsExact(d: Device, step: Step)
    requires NothingLost(d) && step.DoRelease?
    ensures NothingLost(Next(d, step)) <==> !FreesSkipped(d, step)
  {
    StepKeepsCursors(d, step);
    CursorMoves(d, step);
    ZeroIsStart(d.log);
    ReleaseRewinds(d, step);
  }

  /** From a device that has lost nothing, the only step that loses is such a release. */
  lemma StepIsExact(d: Device, step: Step)
    requires NothingLost(d)
    ensures NothingLost(Next(d, step)) <==> !FreesSkipped(d, step)
  {
    if step.DoRelease? {
      ReleaseIsExact(d, step);
    } else if step.DoPullPage? {
      if d.pull.Some? { PageIsExact(d, step.limit, step.now); }
    } else {
      OtherStepLosesNothing(d, step);
    }
  }

  ghost predicate LosesNothing(steps: seq<Step>) {
    forall n: nat :: n <= |steps| ==> NothingLost(Reached(steps, n))
  }

  predicate NeverFreesSkipped(steps: seq<Step>) {
    forall n: nat :: n < |steps| ==> !FreesSkipped(Reached(steps, n), steps[n])
  }

  /** Over a whole run nothing is ever lost exactly if no release falls between two pages of a pull
      and frees a transaction of which that pull has skipped a change. */
  lemma {:induction false} RunsLoseNothingExactly(steps: seq<Step>)
    ensures LosesNothing(steps) <==> NeverFreesSkipped(steps)
    decreases |steps|
  {
    if steps == [] {
      assert Position(NEW_DEVICE) == 0;
      assert Reached(steps, 0) == NEW_DEVICE;
    } else {
      var cut := |steps| - 1;
      RunsLoseNothingExactly(steps[..cut]);
      LosesNothingGrows(steps);
      NeverFreesGrows(steps);
      LastReached(steps);
      if LosesNothing(steps[..cut]) {
        ReachedEarlier(steps, cut, cut);
        assert NothingLost(Reached(steps[..cut], cut));
        StepIsExact(Reached(steps, cut), steps[cut]);
      }
    }
  }

  lemma LastReached(steps: seq<Step>)
    requires steps != []
    ensures Reached(steps, |steps|) == Next(Reached(steps, |steps| - 1), steps[|steps| - 1])
  {
    assert steps[..|steps|] == steps;
  }

  lemma LosesNothingGrows(steps: seq<Step>)
    requires steps != []
    ensures LosesNothing(steps) <==> LosesNothing(steps[..|steps| - 1]) && NothingLost(Reached(steps, |steps|))
  {
    var cut := |steps| - 1;
    forall n: nat | n <= cut ensures Reached(steps[..cut], n) == Reached(steps, n) { ReachedEarlier(steps, cut, n); }
    if LosesNothing(steps[..cut]) {
      assert forall n: nat :: n <= cut ==> NothingLost(Reached(steps[..cut], n));
    }
  }

  lemma NeverFreesGrows(steps: seq<Step>)
    requires steps != []
    ensures var cut := |steps| - 1;
      NeverFreesSkipped(steps) <==> NeverFreesSkipped(steps[..cut]) && !FreesSkipped(Reached(steps, cut), steps[cut])
  {
    var cut := |steps| - 1;
    forall n: nat | n <= cut ensures Reached(steps[..cut], n) == Reached(steps, n) { ReachedEarlier(steps, cut, n); }
    assert forall n: nat :: n < cut ==> steps[..cut][n] == steps[n];
  }

  /** A release in the middle of a pull, seen from the next page: something is lost exactly if a
      skipped change is free now. */
  lemma ReleaseBetweenPages(d: Device, actor: Actor, rows: set<OpId>, allowed: set<Origin>, limit: nat, now: Time)
    requires NothingLost(d) && d.pull.Some?
    ensures var freed := Next(d, DoRelease(actor, rows, allowed));
      NothingLost(Next(freed, DoPullPage(limit, now)))
      <==> forall i :: 0 <= i < After(d.log, d.pull.value) && i !in d.applied ==> Skips(freed.db, d.log[i].change)
  {
    var step := DoRelease(actor, rows, allowed);
    StepKeepsCursors(d, step);
    CursorMoves(d, step);
    PageIsExact(Next(d, step), limit, now);
  }

  // ----- how long a loss lasts -----

  /** The change of log row `i` was never applied, and both cursors stand behind it. */
  ghost predicate Passed(d: Device, i: nat) {
    && CursorsKnown(d) && i < Position(d) && i !in d.applied
    && (d.pull.Some? ==> i < After(d.log, d.pull.value))
  }

  lemma PassedByPage(d: Device, limit: nat, now: Time, i: nat)
    requires Passed(d, i) && d.pull.Some?
    ensures Passed(Next(d, DoPullPage(limit, now)), i)
  {
    StepKeepsCursors(d, DoPullPage(limit, now));
    PageEnds(d, limit, now);
    EarlierRowsUntouched(d, limit, now, i);
  }

  /** A change that was passed stays missing until a release rewinds the cursor, and no longer. */
  lemma PassedUntilRewind(d: Device, step: Step, i: nat)
    requires Passed(d, i)
    ensures Passed(Next(d, step), i) <==> !(step.DoRelease? && Next(d, step).db.cursor == None)
  {
    if step.DoPullPage? {
      if d.pull.Some? { PassedByPage(d, step.limit, step.now, i); }
    } else {
      StepKeepsCursors(d, step);
      ZeroIsStart(d.log);
      CursorMoves(d, step);
      if Next(d, step).log != d.log { LogGrows(d, step.entry); }
    }
  }

  lemma {:induction false} PassedThroughRun(d: Device, steps: seq<Step>, i: nat)
    requires Passed(d, i) && forall n :: 0 <= n < |steps| ==> !steps[n].DoRelease?
    ensures Passed(Run(d, steps), i)
    decreases |steps|
  {
    if steps != [] {
      PassedThroughRun(d, steps[..|steps| - 1], i);
      PassedUntilRewind(Run(d, steps[..|steps| - 1]), steps[|steps| - 1], i);
    }
  }
}
