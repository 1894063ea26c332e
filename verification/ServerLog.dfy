/** Facts about the server's change log and its pager. */
module ServerLog {
  import opened LocalTables
  import opened Repository
  import opened Device
  import Frames

  ghost predicate LogOrdered(log: seq<Entry>) {
    && (forall i :: 0 <= i < |log| ==> log[i].cursor > 0)
    && (forall i, j :: 0 <= i < j < |log| ==> log[i].cursor < log[j].cursor)
  }

  /** `After` is the one position that separates the rows up to a cursor from the rows after it. */
  lemma AfterIs(log: seq<Entry>, cursor: nat, n: nat)
    requires LogOrdered(log) && n <= |log|
    requires n > 0 ==> log[n - 1].cursor <= cursor
    requires n < |log| ==> cursor < log[n].cursor
    ensures After(log, cursor) == n
  {
    assert forall k :: 0 <= k < n ==> log[k].cursor <= log[n - 1].cursor;
    assert forall k :: n <= k < |log| ==> cursor < log[k].cursor;
  }

  lemma AfterAppend(log: seq<Entry>, entry: Entry, cursor: nat)
    requires LogOrdered(log + [entry]) && cursor < entry.cursor
    ensures After(log + [entry], cursor) == After(log, cursor)
  {
    assert forall i :: 0 <= i < |log| ==> (log + [entry])[i] == log[i];
    AfterIs(log + [entry], cursor, After(log, cursor));
  }

  /** The cursor behind a nonempty stretch of rows. */
  lemma AfterStretch(log: seq<Entry>, cursor: nat, end: nat)
    requires LogOrdered(log) && After(log, cursor) < end <= |log|
    ensures cursor < log[end - 1].cursor && After(log, log[end - 1].cursor) == end
  {
    assert log[After(log, cursor)].cursor <= log[end - 1].cursor;
    AfterIs(log, log[end - 1].cursor, end);
  }

  /** A page: exactly the next rows of the log, at most `limit` of them, and the cursor it
      returns points behind the last one; `hasMore` is false exactly at the end of the log. */
  lemma PageFollowsLog(log: seq<Entry>, cursor: nat, limit: nat)
    requires LogOrdered(log)
    ensures var page := PullPage(log, cursor, limit);
      && After(log, page.next) == page.end
      && page.end - page.start <= (if limit < 1 || limit > 500 then 200 else limit)
      && (page.hasMore <==> page.end < |log|)
      && (page.hasMore ==> page.end > page.start)
      && cursor <= page.next
      && (page.next > cursor <==> page.end > page.start)
  {
    var page := PullPage(log, cursor, limit);
    if page.end > page.start { AfterStretch(log, cursor, page.end); }
  }

  /** The repository's query: the first rows after a cursor, ascending, at most `count`. */
  function PullChanges(log: seq<Entry>, cursor: nat, count: nat): (rows: seq<Entry>)
    ensures rows <= log[After(log, cursor)..] && |rows| <= count
  {
    var rest := log[After(log, cursor)..];
    if |rest| <= count then rest else rest[..count]
  }

  /** Sync.Pull: one row more than the limit is read to see whether there is more. */
  method Pull(log: seq<Entry>, cursor: nat, limit: nat) returns (changes: seq<Entry>, next: nat, hasMore: bool)
    ensures var page := PullPage(log, cursor, limit);
      changes == log[page.start..page.end] && next == page.next && hasMore == page.hasMore
  {
    var size := limit;
    if size < 1 || size > 500 { size := 200; }
    changes := PullChanges(log, cursor, size + 1);
    hasMore := |changes| > size;
    if hasMore { changes := changes[..size]; }
    next := cursor;
    if |changes| > 0 { next := changes[|changes| - 1].cursor; }
  }

  function CursorOf(db: Db): nat { if db.cursor.Some? then db.cursor.value else 0 }

  /** How many log rows the stored cursor covers. */
  function Position(d: Device): nat { After(d.log, CursorOf(d.db)) }

  ghost predicate CursorsKnown(d: Device) {
    && LogOrdered(d.log)
    && CursorOf(d.db) <= LastCursor(d.log)
    && (d.pull.Some? ==> d.pull.value <= LastCursor(d.log))
    && Position(d) <= d.reached <= |d.log|
    && (d.pull.Some? ==> After(d.log, d.pull.value) <= d.reached)
  }

  /** After a page the stored cursor and the cursor of the pull stand behind its last row. */
  lemma PageEnds(d: Device, limit: nat, now: Time)
    requires CursorsKnown(d) && d.pull.Some?
    ensures var next, page := Next(d, DoPullPage(limit, now)), PullPage(d.log, d.pull.value, limit);
      && next.log == d.log && next.pull.Some?
      && Position(next) == page.end && After(next.log, next.pull.value) == page.end
  {
    PageFollowsLog(d.log, d.pull.value, limit);
  }

  /** Besides a page, an empty answer moves the stored cursor to that of the pull, and a release may
      reset it. */
  lemma CursorMoves(d: Device, step: Step)
    requires !step.DoPullPage?
    ensures var next := Next(d, step);
      && (next.db.cursor == d.db.cursor || (step.DoRelease? && next.db.cursor == None)
          || (step.DoPullEmpty? && d.pull.Some? && next.db.cursor == d.pull))
      && (next.pull == d.pull || (step.DoPullBegin? && next.pull == Some(CursorOf(d.db))) || next.pull == None)
      && next.reached == d.reached && next.applied == d.applied
      && (next.log == d.log
         || (step.ServerCommit? && next.log == d.log + [step.entry] && step.entry.cursor > LastCursor(d.log)))
  {
    if step.DoEdit? { EditKeepsCursor(d.db, step.edit); }
    else if step.DoMark? {
      if step.op < |d.db.ops| { MarkKeepsCursor(d.db, step.op, Interpret(d.db, step.op, step.answer), step.now); }
    }
    else if step.DoDiscard? { DiscardKeepsCursor(d.db, step.op, step.now); }
    else if step.DoResolve? { ResolveKeepsCursor(d.db, step.id, step.shown, step.resolution, step.signing); }
  }

  lemma EditKeepsCursor(db: Db, edit: Edit)
    ensures var r := ApplyEdit(db, edit); r.Committed? ==> r.db.cursor == db.cursor && r.db.packages == db.packages
  {
  }

  lemma MarkKeepsCursor(db: Db, i: OpId, result: MarkResult, now: Time)
    requires i < |db.ops|
    ensures var next := Mark(db, i, result, now); next.cursor == db.cursor && next.packages == db.packages
  {
  }

  lemma DiscardKeepsCursor(db: Db, i: OpId, now: Time)
    ensures var r := Discard(db, i, now); r.Committed? ==> r.db.cursor == db.cursor && r.db.packages == db.packages
  {
    Frames.DiscardFrame(db, i, now);
  }

  lemma ResolveKeepsCursor(db: Db, id: nat, shown: ConflictRow, resolution: Resolution, signing: Signing)
    ensures var r := Resolve(db, id, shown, resolution, signing);
      r.Committed? ==> r.db.cursor == db.cursor && r.db.packages == db.packages
  {
  }

  lemma StepKeepsCursors(d: Device, step: Step)
    requires CursorsKnown(d)
    ensures CursorsKnown(Next(d, step))
  {
    var next := Next(d, step);
    if step.DoPullPage? {
      if d.pull.Some? {
        PageFollowsLog(d.log, d.pull.value, step.limit);
        PageWithinLog(d.log, d.pull.value, step.limit);
      }
    } else {
      CursorMoves(d, step);
      if next.log != d.log { LogGrows(d, step.entry); }
      ZeroIsStart(d.log);
    }
  }

  lemma ZeroIsStart(log: seq<Entry>)
    requires LogOrdered(log)
    ensures After(log, 0) == 0
  {
    AfterIs(log, 0, 0);
  }

  lemma PageWithinLog(log: seq<Entry>, cursor: nat, limit: nat)
    requires LogOrdered(log) && cursor <= LastCursor(log)
    ensures PullPage(log, cursor, limit).next <= LastCursor(log)
  {
  }

  lemma LogGrows(d: Device, entry: Entry)
    requires CursorsKnown(d) && entry.cursor > LastCursor(d.log)
    ensures LogOrdered(d.log + [entry]) && LastCursor(d.log + [entry]) == entry.cursor
    ensures After(d.log + [entry], CursorOf(d.db)) == Position(d)
    ensures d.pull.Some? ==> After(d.log + [entry], d.pull.value) == After(d.log, d.pull.value)
  {
    assert forall i :: 0 <= i < |d.log| ==> d.log[i].cursor <= LastCursor(d.log);
    AfterAppend(d.log, entry, CursorOf(d.db));
    if d.pull.Some? { AfterAppend(d.log, entry, d.pull.value); }
  }

  lemma {:induction false} RunsKnowCursors(steps: seq<Step>)
    ensures CursorsKnown(Run(NEW_DEVICE, steps))
    decreases |steps|
  {
    if steps != [] {
      RunsKnowCursors(steps[..|steps| - 1]);
      StepKeepsCursors(Run(NEW_DEVICE, steps[..|steps| - 1]), steps[|steps| - 1]);
    }
  }
}
