/** The synchronization engine: the push loop and the pull loop over the local store. */
module SyncEngine {
  import opened LocalTables
  import opened Repository
  import opened Device
  import opened InOrder
  import opened ServerLog
  import opened LocalStore

  const BATCH_LIMIT: nat := 25
  const PAGE_LIMIT: nat := 100

  /** Operations that some fetch up to `horizon` may still return. */
  function Due(ops: seq<Op>, horizon: Time): set<OpId> {
    set i: nat | i < |ops| && ops[i].Unsent() && ops[i].quarantine.None?
      && (ops[i].nextAttempt.None? || ops[i].nextAttempt.value <= horizon)
  }

  /** Whatever the answer, the marked operation is no longer due and no other one becomes due. */
  lemma MarkShrinksDue(db: Db, i: OpId, result: MarkResult, now: Time, horizon: Time)
    requires i in Due(db.ops, horizon) && horizon < now + RETRY_DELAY
    ensures Due(Mark(db, i, result, now).ops, horizon) <= Due(db.ops, horizon) - {i}
  {
    MarkWritesRows(db, i, result, now);
    assert Mark(db, i, result, now).ops[i].state == Error
      ==> Mark(db, i, result, now).ops[i].nextAttempt == Some(now + RETRY_DELAY);
  }

  lemma SubsetSize<T>(a: set<T>, b: set<T>)
    requires a <= b
    ensures |a| <= |b|
  {
    assert b == a + (b - a);
  }

  /** The machine steps of one push round. */
  function MarkSteps(batch: seq<OpId>, answers: OpId -> Answer, at: OpId -> Time): (steps: seq<Step>)
    ensures |steps| == |batch|
  {
    seq(|batch|, n requires 0 <= n < |batch| => DoMark(batch[n], answers(batch[n]), at(batch[n])))
  }

  datatype ServerPage = ServerPage(changes: seq<Change>, cursor: nat, hasMore: bool)

  /** The cursor sent with the n-th request: the stored one first, then the last one received. */
  function Asked(first: Option<nat>, pages: seq<ServerPage>, n: nat): Option<nat>
    requires n <= |pages|
  {
    if n == 0 then first else Some(pages[n - 1].cursor)
  }

  function RealPage(log: seq<Entry>, asked: Option<nat>): ServerPage {
    var page := PullPage(log, if asked.Some? then asked.value else 0, PAGE_LIMIT);
    ServerPage(Changes(log[page.start..page.end]), page.next, page.hasMore)
  }

  /** The answers of the real pager over a log that does not change meanwhile. */
  ghost predicate Honest(pages: seq<ServerPage>, first: Option<nat>, log: seq<Entry>) {
    LogOrdered(log) && forall n :: 0 <= n < |pages| ==> pages[n] == RealPage(log, Asked(first, pages, n))
  }

  /** Every page moves the cursor forward, strictly when it says there is more. */
  ghost predicate Rising(pages: seq<ServerPage>, first: Option<nat>) {
    forall n :: 0 <= n < |pages| && Asked(first, pages, n).Some? ==>
      && pages[n].cursor >= Asked(first, pages, n).value
      && (pages[n].hasMore ==> pages[n].cursor > Asked(first, pages, n).value)
  }

  /** The tables after the first `n` pages were applied. */
  function Pulled(db: Db, pages: seq<ServerPage>, n: nat, now: Time): Db
    requires n <= |pages|
    decreases n
  {
    if n == 0 then db else ApplyPage(Pulled(db, pages, n - 1, now), pages[n - 1].changes, pages[n - 1].cursor, now)
  }

  class SyncEngine {
    const store: LocalStore
    ghost var device: Device

    ghost predicate Valid()
      reads this, store
    {
      store.Tables() == device.db && Ordered(device) && device.inFlight == {}
    }

    constructor (store: LocalStore)
      requires store.Tables() == EMPTY_DB
      ensures Valid() && this.store == store && device == NEW_DEVICE
    {
      this.store := store;
      this.device := NEW_DEVICE;
    }

    /** Sends one answer to the store; the machine takes the same step. */
    method Record(item: OpId, answer: Answer, now: Time, ghost horizon: Time)
      requires store.Tables() == device.db && Ordered(device) && item in device.inFlight
      requires item in Due(device.db.ops, horizon) && horizon < now + RETRY_DELAY
      modifies this, store
      ensures store.Tables() == device.db && Ordered(device)
      ensures device == Next(old(device), DoMark(item, answer, now))
      ensures device.inFlight == old(device).inFlight - {item}
      ensures Due(device.db.ops, horizon) <= Due(old(device).db.ops, horizon) - {item}
      ensures forall k :: k in device.inFlight && k in Due(old(device).db.ops, horizon) ==>
        k in Due(device.db.ops, horizon)
    {
      var result := Interpret(store.Tables(), item, answer);
      MarkShrinksDue(device.db, item, result, now, horizon);
      MarkKeepsOrder(device, item, result, now);
      OthersStayDue(device, item, result, now, horizon);
      store.MarkOutboxResult(item, result, now);
      device := Next(device, DoMark(item, answer, now));
    }

    /** One pass of the push loop: fetch, send, record every answer. It is a run of the machine,
        and it takes every fetched operation out of the due ones, whatever the server answers. */
    method PushRound(now: Time, answers: OpId -> Answer, at: OpId -> Time, ghost horizon: Time)
        returns (batch: seq<OpId>)
      requires Valid()
      requires now <= horizon && forall i :: horizon < at(i) + RETRY_DELAY
      modifies this, store
      ensures Valid()
      ensures batch == Batch(old(store.outbox), 0, now, 25)
      ensures device == Run(Next(old(device), DoFetch(now, BATCH_LIMIT)), MarkSteps(batch, answers, at))
      ensures |Due(device.db.ops, horizon)| + |batch| <= |Due(old(device).db.ops, horizon)|
    {
      batch := store.GetOutboxOperations(now, BATCH_LIMIT);
      FetchKeepsOrder(device, now, BATCH_LIMIT);
      device := Next(device, DoFetch(now, BATCH_LIMIT));
      ghost var fetched := device;
      ghost var all := Due(device.db.ops, horizon);
      BatchIsDue(device.db.ops, now, horizon);
      for n := 0 to |batch|
        invariant store.Tables() == device.db && Ordered(device)
        invariant device == Run(fetched, MarkSteps(batch[..n], answers, at))
        invariant device.inFlight == SetOf(batch[n..])
        invariant |Due(device.db.ops, horizon)| + n <= |all|
        invariant SetOf(batch[n..]) <= Due(device.db.ops, horizon)
      {
        var item := batch[n];
        FlightShrinks(batch, n);
        ghost var due := Due(device.db.ops, horizon);
        Record(item, answers(item), at(item), horizon);
        SubsetSize(Due(device.db.ops, horizon), due - {item});
        StepsGrow(fetched, batch, n, answers, at);
      }
      assert batch[..|batch|] == batch;
    }

    /** The push loop. Less than 30 seconds pass between any two readings of the clock, and no
        local operation is added meanwhile; then it ends, whatever the server answers. */
    method PushAll(clock: nat -> Time, answers: nat -> OpId -> Answer, at: nat -> OpId -> Time, ghost horizon: Time)
        returns (rounds: nat)
      requires Valid()
      requires forall n :: clock(n) <= horizon
      requires forall n, i :: horizon < at(n)(i) + RETRY_DELAY
      modifies this, store
      ensures Valid()
      ensures rounds <= |Due(old(device).db.ops, horizon)|
      ensures Batch(store.outbox, 0, clock(rounds), BATCH_LIMIT) == []
      ensures exists steps :: device == Run(old(device), steps)
    {
      rounds := 0;
      ghost var steps: seq<Step> := [];
      while true
        invariant Valid()
        invariant rounds + |Due(device.db.ops, horizon)| <= |Due(old(device).db.ops, horizon)|
        invariant device == Run(old(device), steps)
        decreases |Due(device.db.ops, horizon)|
      {
        ghost var before := device;
        var batch := PushRound(clock(rounds), answers(rounds), at(rounds), horizon);
        var round := [DoFetch(clock(rounds), BATCH_LIMIT)] + MarkSteps(batch, answers(rounds), at(rounds));
        RoundIsRun(before, clock(rounds), MarkSteps(batch, answers(rounds), at(rounds)));
        RunAppend(old(device), steps, round);
        steps := steps + round;
        if batch == [] { break; }
        rounds := rounds + 1;
      }
    }

    /** The pull loop, whatever pages the server answers: with N distinct cursors in them the loop
        ends within N + 1 pages, and leaves exactly the pages that were applied. It never throws
        when the server moves the cursor, as the real pager does. */
    method PullAll(answers: seq<ServerPage>, now: Time, ghost cursors: set<nat>)
      returns (pages: nat, thrown: bool)
      requires |answers| > |cursors| && forall n :: 0 <= n < |answers| ==> answers[n].cursor in cursors
      modifies store
      ensures 0 < pages <= |cursors| + 1
      ensures store.Tables() == Pulled(old(store.Tables()), answers, if thrown then pages - 1 else pages, now)
      ensures thrown <==> answers[pages - 1].hasMore
      ensures Rising(answers, old(store.cursor)) ==> !thrown
    {
      ghost var begin, first := store.Tables(), store.cursor;
      var seen := if store.cursor.Some? then {store.cursor.value} else {};
      ghost var unseen := cursors;
      pages, thrown := 0, false;
      while true
        invariant pages <= |answers| && pages + |unseen| <= |cursors|
        invariant forall c :: c in cursors ==> c in seen || c in unseen
        invariant Rising(answers, first) ==> Behind(seen, Asked(first, answers, pages))
        invariant store.Tables() == Pulled(begin, answers, pages, now)
        decreases unseen
      {
        var page := answers[pages];
        if page.hasMore && page.cursor in seen { return pages + 1, true; }
        store.ApplyRemoteChanges(page.changes, page.cursor, now);
        pages := pages + 1;
        if !page.hasMore { return pages, false; }
        seen, unseen := seen + {page.cursor}, unseen - {page.cursor};
      }
    }
  }

  predicate Behind(seen: set<nat>, cursor: Option<nat>) {
    forall c :: c in seen ==> cursor.Some? && c <= cursor.value
  }

  /** The real pager moves the cursor forward, and its last page ends at the end of the log. */
  lemma HonestRises(pages: seq<ServerPage>, first: Option<nat>, log: seq<Entry>)
    requires Honest(pages, first, log)
    ensures Rising(pages, first)
    ensures forall n :: 0 <= n < |pages| && !pages[n].hasMore ==> After(log, pages[n].cursor) == |log|
  {
    forall n | 0 <= n < |pages|
      ensures Asked(first, pages, n).Some? ==>
                && pages[n].cursor >= Asked(first, pages, n).value
                && (pages[n].hasMore ==> pages[n].cursor > Asked(first, pages, n).value)
      ensures !pages[n].hasMore ==> After(log, pages[n].cursor) == |log|
    {
      var asked := Asked(first, pages, n);
      PageFollowsLog(log, if asked.Some? then asked.value else 0, PAGE_LIMIT);
    }
  }

  lemma OthersStayDue(d: Device, i: OpId, result: MarkResult, now: Time, horizon: Time)
    requires Ordered(d) && i in d.inFlight
    ensures forall k :: k in d.inFlight && k != i && k in Due(d.db.ops, horizon) ==>
      k in Due(Mark(d.db, i, result, now).ops, horizon)
  {
    MarkWritesRows(d.db, i, result, now);
    forall k | k in d.inFlight && k != i && k in Due(d.db.ops, horizon)
      ensures Mark(d.db, i, result, now).ops[k] == d.db.ops[k]
    {
      assert d.db.ops[k].key != d.db.ops[i].key;
    }
  }

  lemma StepsGrow(d: Device, batch: seq<OpId>, n: nat, answers: OpId -> Answer, at: OpId -> Time)
    requires n < |batch|
    ensures Run(d, MarkSteps(batch[..n + 1], answers, at))
      == Next(Run(d, MarkSteps(batch[..n], answers, at)), DoMark(batch[n], answers(batch[n]), at(batch[n])))
  {
    var longer := MarkSteps(batch[..n + 1], answers, at);
    assert longer[..|longer| - 1] == MarkSteps(batch[..n], answers, at);
  }

  function SetOf(batch: seq<OpId>): set<OpId> {
    set b | b in batch
  }

  lemma FlightShrinks(batch: seq<OpId>, n: nat)
    requires n < |batch| && forall x, y :: 0 <= x < y < |batch| ==> batch[x] < batch[y]
    ensures batch[n] in SetOf(batch[n..]) && SetOf(batch[n..]) - {batch[n]} == SetOf(batch[n + 1..])
  {
    assert batch[n..] == [batch[n]] + batch[n + 1..];
    var rest := batch[n + 1..];
    assert forall x :: 0 <= x < |rest| ==> rest[x] == batch[n + 1 + x];
  }

  lemma BatchIsDue(ops: seq<Op>, now: Time, horizon: Time)
    requires now <= horizon
    ensures SetOf(Batch(ops, 0, now, BATCH_LIMIT)) <= Due(ops, horizon)
    ensures var batch := Batch(ops, 0, now, BATCH_LIMIT); forall x, y :: 0 <= x < y < |batch| ==> batch[x] < batch[y]
  {
  }

  lemma RoundIsRun(d: Device, now: Time, marks: seq<Step>)
    ensures Run(Next(d, DoFetch(now, BATCH_LIMIT)), marks) == Run(d, [DoFetch(now, BATCH_LIMIT)] + marks)
  {
    RunAppend(d, [DoFetch(now, BATCH_LIMIT)], marks);
    assert [DoFetch(now, BATCH_LIMIT)][..0] == [];
    assert Run(d, [DoFetch(now, BATCH_LIMIT)]) == Next(Run(d, []), DoFetch(now, BATCH_LIMIT));
  }

  function PageSteps(n: nat, now: Time): (steps: seq<Step>)
    ensures |steps| == n + 1
  {
    [DoPullBegin] + seq(n, _ => DoPullPage(100, now))
  }

  /** The pages of a pull against the real pager are a run of the machine. */
  lemma {:induction false} PulledIsRun(d: Device, pages: seq<ServerPage>, n: nat, now: Time)
    requires Honest(pages, d.db.cursor, d.log) && n <= |pages|
    ensures var after := Run(d, PageSteps(n, now));
      && after.db == Pulled(d.db, pages, n, now) && after.log == d.log && after.pull == Some(CursorOf(after.db))
      && after.db.cursor == Asked(d.db.cursor, pages, n)
  {
    var steps := PageSteps(n, now);
    if n == 0 {
      assert steps[..0] == [];
      assert Run(d, []) == d;
      assert Run(d, steps) == Next(d, DoPullBegin);
    } else {
      assert steps[..n] == PageSteps(n - 1, now);
      PulledIsRun(d, pages, n - 1, now);
      PageIsStep(Run(d, steps[..n]), now);
    }
  }

  lemma PageIsStep(d: Device, now: Time)
    requires d.pull == Some(CursorOf(d.db))
    ensures var after, page := Next(d, DoPullPage(PAGE_LIMIT, now)), RealPage(d.log, d.db.cursor);
      && after.db == ApplyPage(d.db, page.changes, page.cursor, now) && after.log == d.log
      && after.pull == Some(page.cursor) && after.db.cursor == after.pull
  {
  }
}
