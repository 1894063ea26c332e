/** Concrete runs: the premises of the theorems about runs can be met, and where the code does less
    than one might expect, it does so in a reachable device. */
module Witnesses {
  import opened LocalTables
  import opened Repository
  import opened Device
  import opened InOrder
  import opened Convergence
  import opened Coverage
  import opened PaymentConflicts
  import opened PaymentUndo
  import opened RefusedCreates
  import opened ServerLog
  import opened StoredPackages
  import opened Undo

  const SESSION := Session("", "", false, false, true, "", "")
  const SIGNING := Signing(0, "", "", SESSION)
  const LINE := Line("", 1, 100, 1)
  const KEY: Key := "k"
  const CREATE := EditCreate(KEY, [LINE], Cash, None, None, SIGNING)
  const CORRECT := EditCorrect(KEY, [LINE], Cash, None, SIGNING)

  lemma RunOne(d: Device, steps: seq<Step>, step: Step)
    ensures Run(d, steps + [step]) == Next(Run(d, steps), step)
  {
    assert (steps + [step])[..|steps|] == steps;
  }

  lemma RunThree(d: Device, a: Step, b: Step, c: Step)
    ensures Run(d, [a, b, c]) == Next(Next(Next(d, a), b), c)
  {
    RunOne(d, [], a);
    RunOne(d, [a], b);
    RunOne(d, [a, b], c);
    assert [] + [a] == [a] && [a] + [b] == [a, b] && [a, b] + [c] == [a, b, c];
  }

  // ----- a refused correction -----

  /** The outbox holds one operation of the transaction, in the given state. */
  predicate OneOp(db: Db, state: OpState) {
    && |db.ops| == 1 && db.ops[0].key == KEY && db.ops[0].state == state && db.ops[0].signed.action == Create
    && db.ops[0].quarantine.None? && db.ops[0].nextAttempt.None? && db.ops[0].lastError.None?
    && KEY in db.txs && db.txs[KEY].revision == 1 && db.txs[KEY].originActor == "" && db.txs[KEY].deletedAt.None?
    && db.txs[KEY].syncState != SyncConflict && db.revs.Keys == {(KEY, 1)} && db.blocked.None?
  }

  lemma OneSelected()
    ensures Selected([LINE]) == [LINE] && !LinesRefused([LINE], Cash)
  {
    assert [LINE][1..] == [];
  }

  lemma CreatePending()
    ensures var d := Next(NEW_DEVICE, DoEdit(CREATE)); OneOp(d.db, Pending) && d.inFlight == {} && d.sent == {}
  {
    OneSelected();
  }

  lemma BatchOfOne(ops: seq<Op>, i: OpId)
    requires |ops| == i + 1 && Sendable(ops, i, 0) && forall j :: 0 <= j < i ==> !Sendable(ops, j, 0)
    ensures Batch(ops, 0, 0, 1) == [i]
  {
    var batch := Batch(ops, 0, 0, 1);
    assert i in batch;
  }

  lemma FirstSent(d: Device)
    requires OneOp(d.db, Pending) && d.inFlight == {}
    ensures var next := Next(d, DoFetch(0, 1)); next.db == d.db && next.inFlight == {0}
  {
    BatchOfOne(d.db.ops, 0);
  }

  lemma FirstApplied(d: Device)
    requires OneOp(d.db, Pending) && d.inFlight == {0}
    ensures var next := Next(d, DoMark(0, Applied, 0)); OneOp(next.db, Synced) && next.inFlight == {}
  {
  }

  const BEFORE := [DoEdit(CREATE), DoFetch(0, 1), DoMark(0, Applied, 0)]

  lemma CreatedAndSent()
    ensures var d := Run(NEW_DEVICE, BEFORE); OneOp(d.db, Synced) && d.inFlight == {}
  {
    RunThree(NEW_DEVICE, BEFORE[0], BEFORE[1], BEFORE[2]);
    CreatePending();
    var d := Next(NEW_DEVICE, DoEdit(CREATE));
    FirstSent(d);
    FirstApplied(Next(d, DoFetch(0, 1)));
  }

  lemma Corrected(db: Db)
    requires OneOp(db, Synced)
    ensures ApplyEdit(db, CORRECT).Committed?
    ensures var next := ApplyEdit(db, CORRECT).db;
      && |next.ops| == 2 && next.ops[0] == db.ops[0] && EditOf(next.ops, 1, KEY) && next.ops[1].state == Pending
      && next.ops[1].quarantine.None? && next.ops[1].nextAttempt.None?
  {
    OneSelected();
    assert [db.ops[0]][1..] == [];
    assert db.ops == [db.ops[0]];
  }

  lemma SecondSent(d: Device)
    requires |d.db.ops| == 2 && d.db.ops[0].state == Synced && EditOf(d.db.ops, 1, KEY) && d.db.ops[1].state == Pending
    requires d.db.ops[1].quarantine.None? && d.db.ops[1].nextAttempt.None? && d.inFlight == {}
    ensures var next := Next(d, DoFetch(0, 1)); next.db == d.db && next.inFlight == {1}
  {
    BatchOfOne(d.db.ops, 1);
  }

  /** The device after the correction was refused with a message. */
  function RefusedWith(message: string): Device {
    Next(Run(Next(Run(NEW_DEVICE, BEFORE), DoEdit(CORRECT)), [DoFetch(0, 1)]), DoMark(1, Refusal(message), 0))
  }

  lemma RefusedOp(d: Device, message: string)
    requires |d.db.ops| == 2 && EditOf(d.db.ops, 1, KEY) && d.db.ops[1].quarantine.None? && d.db.ops[0].quarantine.None?
    requires d.inFlight == {1}
    ensures var next := Next(d, DoMark(1, Refusal(message), 0));
      && EditOf(next.db.ops, 1, KEY) && next.db.ops[1].state == Rejected && !QuarantinedKey(next.db.ops, KEY)
  {
    MarkWritesRows(d.db, 1, MarkRejected(message), 0);
  }

  lemma CorrectionFetched()
    ensures var start := Run(NEW_DEVICE, BEFORE); var sent := Run(Next(start, DoEdit(CORRECT)), [DoFetch(0, 1)]);
      && ApplyEdit(start.db, CORRECT).Committed? && |sent.db.ops| == 2 && EditOf(sent.db.ops, 1, KEY)
      && sent.db.ops[0].quarantine.None? && sent.db.ops[1].quarantine.None? && sent.inFlight == {1}
  {
    CreatedAndSent();
    var start := Run(NEW_DEVICE, BEFORE);
    Corrected(start.db);
    var edited := Next(start, DoEdit(CORRECT));
    SecondSent(edited);
    RunOne(edited, [], DoFetch(0, 1));
    assert [] + [DoFetch(0, 1)] == [DoFetch(0, 1)];
  }

  /** A create that was applied and a correction that is refused, with any text: discarding the
      correction brings the created transaction back exactly if the text has no prefix. */
  lemma RefusedCorrection(message: string, now: Time)
    ensures var start := Run(NEW_DEVICE, BEFORE).db;
      && KEY in start.txs
      && (if HasPaymentPrefix(message) then Discard(RefusedWith(message).db, 1, now) == RolledBack
          else Discard(RefusedWith(message).db, 1, now).Committed?
               && UndoneTo(Discard(RefusedWith(message).db, 1, now).db, KEY, Hydrate(start, KEY)))
  {
    CreatedAndSent();
    CorrectionFetched();
    RefusedOp(Run(Next(Run(NEW_DEVICE, BEFORE), DoEdit(CORRECT)), [DoFetch(0, 1)]), message);
    ExactUndo(BEFORE, CORRECT, [DoFetch(0, 1)], Refusal(message), message, 0, [], 1, now);
  }

  /** One input for each: a refusal that looks like a payment conflict can not be discarded, another can. */
  lemma PrefixedRefusalStays(now: Time)
    ensures Discard(RefusedWith(PAYMENT_CONFLICT_PREFIX).db, 1, now) == RolledBack
    ensures Discard(RefusedWith("").db, 1, now).Committed?
  {
    RefusedCorrection(PAYMENT_CONFLICT_PREFIX, now);
    RefusedCorrection("", now);
  }

  // ----- a refused payment decision -----

  const PENDING_ROW :=
      Txn(1, Sale(0, 0, 0, Cash, None), "", "", "", SyncSynced, PrintPending, PaymentPending, None, None, None)
  const UNPAID := Entry(1, TxUpsert(KEY, Snapshot(PENDING_ROW, {})))
  const UNPAID_PULLED := [ServerCommit(UNPAID), DoPullBegin, DoPullPage(1, 0)]

  /** The transaction is there, unpaid, and nobody has touched it. */
  predicate Unpaid(d: Device) {
    d.db.ops == [] && d.db.audits == [] && d.inFlight == {} && d.db.blocked.None? && KEY in d.db.txs
      && d.db.txs[KEY] == PENDING_ROW
  }

  lemma UnpaidPage(d: Device)
    requires d == NEW_DEVICE.(log := [UNPAID], pull := Some(0))
    ensures Unpaid(Next(d, DoPullPage(1, 0)))
  {
    assert After(d.log, 0) == 0;
    assert PullPage(d.log, 0, 1) == Page(0, 1, 1, false);
    assert d.log[0..1] == d.log && Changes([UNPAID]) == [UNPAID.change];
    OneChange(d.db, UNPAID.change, 0);
    UnpaidShown(ApplyChange(d.db, UNPAID.change, 0));
  }

  lemma UnpaidShown(db: Db)
    requires db == ApplyChange(EMPTY_DB, UNPAID.change, 0)
    ensures db.ops == [] && db.audits == [] && db.blocked.None? && KEY in db.txs && db.txs[KEY] == PENDING_ROW
  {
  }

  lemma UnpaidPulled()
    ensures Unpaid(Run(NEW_DEVICE, UNPAID_PULLED))
  {
    RunThree(NEW_DEVICE, ServerCommit(UNPAID), DoPullBegin, DoPullPage(1, 0));
    assert [] + [UNPAID] == [UNPAID];
    UnpaidPage(Next(Next(NEW_DEVICE, ServerCommit(UNPAID)), DoPullBegin));
  }

  function Decide(status: PaymentStatus): Edit { EditPayment(KEY, status, SIGNING) }

  lemma Decided(d: Device, status: PaymentStatus)
    requires Unpaid(d) && status != PaymentPending
    ensures ApplyEdit(d.db, Decide(status)).Committed?
    ensures var next := Next(d, DoEdit(Decide(status)));
      && |next.db.ops| == 1 && EditOf(next.db.ops, 0, KEY) && next.db.ops[0].state == Pending
      && next.db.ops[0].quarantine.None? && next.db.ops[0].nextAttempt.None? && next.inFlight == {}
      && |next.db.audits| == 1 && KEY in next.db.txs && next.db.txs[KEY].paymentStatus == status
      && next.db.txs[KEY].deletedAt.None? && next.db.txs[KEY].originActor == ""
      && next.db.txs[KEY].syncState == SyncPending
  {
  }

  lemma DecisionSent(d: Device)
    requires |d.db.ops| >= 1 && EditOf(d.db.ops, 0, KEY) && d.db.ops[0].state == Pending
    requires forall i :: 0 <= i < |d.db.ops| ==> d.db.ops[i].key == KEY
    requires d.db.ops[0].quarantine.None? && d.db.ops[0].nextAttempt.None? && d.inFlight == {}
    ensures var next := Next(d, DoFetch(0, 1)); next.db == d.db && next.inFlight == {0}
  {
    var batch := Batch(d.db.ops, 0, 0, 1);
    assert Sendable(d.db.ops, 0, 0);
    assert 0 in batch && |batch| == 1;
    assert batch == [0];
  }

  lemma DecisionRefused(d: Device, message: string)
    requires |d.db.ops| >= 1 && EditOf(d.db.ops, 0, KEY) && d.inFlight == {0}
    requires !QuarantinedKey(d.db.ops, KEY)
    ensures var next := Next(d, DoMark(0, Refusal(message), 0));
      && EditOf(next.db.ops, 0, KEY) && next.db.ops[0].state == Rejected && !QuarantinedKey(next.db.ops, KEY)
      && next.db.audits == d.db.audits
  {
    MarkWritesRows(d.db, 0, MarkRejected(message), 0);
  }

  /** A refused decision of an untouched transaction meets the premises of the undo. */
  lemma DecisionAnswered(start: Device, first: Edit, during: seq<Step>, sent: Device, message: string)
    requires first.EditPayment? && first.key == KEY && start.db.ops == [] && PullFree(during)
    requires ApplyEdit(start.db, first).Committed? && |ApplyEdit(start.db, first).db.ops| == 1
    requires sent == Run(Next(start, DoEdit(first)), during)
    requires |sent.db.ops| >= 1 && EditOf(sent.db.ops, 0, KEY) && sent.inFlight == {0}
      && !QuarantinedKey(sent.db.ops, KEY)
    ensures RefusedAt(start, first, during, Refusal(message), message, 0, [], 0)
    ensures LastOf(start, first, during, Refusal(message), 0, []).db.audits == sent.db.audits
  {
    DecisionRefused(sent, message);
    assert Interpret(sent.db, 0, Refusal(message)) == MarkRejected(message);
    var refused := Next(sent, DoMark(0, Refusal(message), 0));
    assert Run(refused, []) == refused;
  }

  /** Discarding it goes back exactly if the sent device has no other decision of that time. */
  lemma AnsweredIsUndone(before: seq<Step>, start: Device, first: Edit, during: seq<Step>, sent: Device,
      message: string, now: Time)
    requires start == Run(NEW_DEVICE, before)
    requires first.EditPayment? && first.key == KEY && start.db.ops == [] && PullFree(during)
    requires ApplyEdit(start.db, first).Committed? && |ApplyEdit(start.db, first).db.ops| == 1
    requires sent == Run(Next(start, DoEdit(first)), during)
    requires |sent.db.ops| >= 1 && EditOf(sent.db.ops, 0, KEY) && sent.inFlight == {0}
      && !QuarantinedKey(sent.db.ops, KEY)
    ensures KEY in start.db.txs
    ensures var last := LastOf(start, first, during, Refusal(message), 0, []);
      if HasPaymentPrefix(message) then Discard(last.db, 0, now) == RolledBack
      else
        && Discard(last.db, 0, now).Committed?
        && (UndoneTo(Discard(last.db, 0, now).db, KEY, Hydrate(start.db, KEY))
            <==> !DecidedFrom(sent.db.audits, |start.db.audits| + 1, KEY, first.signing.now))
  {
    DecisionAnswered(start, first, during, sent, message);
    ExactPaymentUndo(before, first, during, Refusal(message), message, 0, [], 0, now);
  }

  lemma DecisionFetched(start: Device, first: Edit)
    requires Unpaid(start) && first == Decide(PaymentSuccess)
    ensures ApplyEdit(start.db, first).Committed? && |ApplyEdit(start.db, first).db.ops| == 1
    ensures var sent := Run(Next(start, DoEdit(first)), [DoFetch(0, 1)]);
      && |sent.db.ops| == 1 && EditOf(sent.db.ops, 0, KEY) && sent.inFlight == {0}
      && !QuarantinedKey(sent.db.ops, KEY) && |sent.db.audits| == 1
  {
    Decided(start, PaymentSuccess);
    DecisionSent(Next(start, DoEdit(first)));
    RunOne(Next(start, DoEdit(first)), [], DoFetch(0, 1));
    assert [] + [DoFetch(0, 1)] == [DoFetch(0, 1)];
  }

  /** An unpaid transaction was pulled and is confirmed here; the server refuses that, with any text.
      Discarding makes it unpaid again exactly if the text has no prefix. */
  lemma RefusedDecision(message: string, now: Time)
    ensures var start := Run(NEW_DEVICE, UNPAID_PULLED);
      var last := LastOf(start, Decide(PaymentSuccess), [DoFetch(0, 1)], Refusal(message), 0, []);
      && KEY in start.db.txs && start.db.txs[KEY].paymentStatus == PaymentPending
      && (if HasPaymentPrefix(message) then Discard(last.db, 0, now) == RolledBack
          else Discard(last.db, 0, now).Committed?
               && UndoneTo(Discard(last.db, 0, now).db, KEY, Hydrate(start.db, KEY)))
  {
    UnpaidPulled();
    var start, first, during := Run(NEW_DEVICE, UNPAID_PULLED), Decide(PaymentSuccess), [DoFetch(0, 1)];
    DecisionFetched(start, first);
    AnsweredIsUndone(UNPAID_PULLED, start, first, during, Run(Next(start, DoEdit(first)), during), message, now);
  }

  lemma DecidedTwice(d: Device)
    requires Unpaid(d)
    ensures var next := Next(Next(d, DoEdit(Decide(PaymentFailed))), DoEdit(Decide(PaymentSuccess)));
      && |next.db.ops| == 2
      && (forall i :: 0 <= i < 2 ==> EditOf(next.db.ops, i, KEY) && next.db.ops[i].quarantine.None?)
      && next.db.ops[0].state == Pending && next.db.ops[0].nextAttempt.None? && next.inFlight == {}
      && |next.db.audits| == 2 && IsDecision(next.db.audits[1], KEY) && next.db.audits[1].at == 0
  {
    Decided(d, PaymentFailed);
  }

  lemma TieFetched(start: Device, first: Edit, again: Step)
    requires Unpaid(start) && first == Decide(PaymentFailed) && again == DoEdit(Decide(PaymentSuccess))
    ensures ApplyEdit(start.db, first).Committed? && |ApplyEdit(start.db, first).db.ops| == 1
    ensures var sent := Run(Next(start, DoEdit(first)), [again, DoFetch(0, 1)]);
      && |sent.db.ops| == 2 && EditOf(sent.db.ops, 0, KEY) && sent.inFlight == {0}
      && !QuarantinedKey(sent.db.ops, KEY)
      && |sent.db.audits| == 2 && IsDecision(sent.db.audits[1], KEY) && sent.db.audits[1].at == 0
  {
    Decided(start, PaymentFailed);
    DecidedTwice(start);
    var decided := Next(start, DoEdit(first));
    DecisionSent(Next(decided, again));
    RunOne(decided, [], again);
    RunOne(decided, [again], DoFetch(0, 1));
    assert [] + [again] == [again] && [again] + [DoFetch(0, 1)] == [again, DoFetch(0, 1)];
  }

  /** Two decisions within one millisecond, the first of which is refused: the discard succeeds and does
      not bring the state before them back. */
  lemma TiedDecisions(now: Time)
    ensures var start := Run(NEW_DEVICE, UNPAID_PULLED);
      var during := [DoEdit(Decide(PaymentSuccess)), DoFetch(0, 1)];
      var last := LastOf(start, Decide(PaymentFailed), during, Refusal(""), 0, []);
      && KEY in start.db.txs && Discard(last.db, 0, now).Committed?
      && !UndoneTo(Discard(last.db, 0, now).db, KEY, Hydrate(start.db, KEY))
  {
    UnpaidPulled();
    var start, first, again := Run(NEW_DEVICE, UNPAID_PULLED), Decide(PaymentFailed), DoEdit(Decide(PaymentSuccess));
    TieFetched(start, first, again);
    var during := [again, DoFetch(0, 1)];
    AnsweredIsUndone(UNPAID_PULLED, start, first, during, Run(Next(start, DoEdit(first)), during), "", now);
  }

  // ----- a payment conflict -----

  const SERVER_STATE := ApiSnapshot(Sale(0, 0, 0, Cash, None), PaymentFailed, None, None, [])
  const PAID_ELSEWHERE := PaymentConflict(1, PaymentFailed, None, SERVER_STATE, "")

  /** The device that has sent the correction. */
  function Sent(): Device { Run(NEW_DEVICE, BEFORE + [DoEdit(CORRECT)] + [DoFetch(0, 1)]) }

  lemma CorrectionSent()
    ensures var d := Sent();
      && |d.db.ops| == 2 && EditOf(d.db.ops, 1, KEY) && d.db.ops[1].signed.action == Correct && KEY in d.db.txs
      && d.db.ops[0].quarantine.None? && d.db.ops[1].quarantine.None? && d.inFlight == {1}
  {
    CreatedAndSent();
    var start := Run(NEW_DEVICE, BEFORE);
    RunOne(NEW_DEVICE, BEFORE, DoEdit(CORRECT));
    RunOne(NEW_DEVICE, BEFORE + [DoEdit(CORRECT)], DoFetch(0, 1));
    Corrected(start.db);
    SecondSent(Next(start, DoEdit(CORRECT)));
  }

  lemma ConflictAnswered(d: Device)
    requires |d.db.ops| == 2 && EditOf(d.db.ops, 1, KEY) && KEY in d.db.txs
    requires d.db.ops[0].quarantine.None? && d.db.ops[1].quarantine.None? && d.inFlight == {1}
    ensures Interpret(d.db, 1, PAID_ELSEWHERE).MarkPaymentConflict?
    ensures var next := Next(d, DoMark(1, PAID_ELSEWHERE, 0));
      EditOf(next.db.ops, 1, KEY) && next.db.ops[1].state == Rejected && !QuarantinedKey(next.db.ops, KEY)
  {
    MarkWritesRows(d.db, 1, Interpret(d.db, 1, PAID_ELSEWHERE), 0);
  }

  /** A correction that is answered with a payment conflict: discarding it leaves what the server sent. */
  lemma ConflictedCorrection(now: Time)
    ensures |Sent().db.ops| == 2 && Interpret(Sent().db, 1, PAID_ELSEWHERE).MarkPaymentConflict?
    ensures var r := Discard(Next(Sent(), DoMark(1, PAID_ELSEWHERE, 0)).db, 1, now);
      r.Committed? && UndoneTo(r.db, KEY, KeptSnapshot(Interpret(Sent().db, 1, PAID_ELSEWHERE)))
  {
    CorrectionSent();
    ConflictAnswered(Sent());
    PaymentConflictKeepsServer(BEFORE + [DoEdit(CORRECT)] + [DoFetch(0, 1)], 1, PAID_ELSEWHERE, 0, [], 1, now);
  }

  // ----- a refused create -----

  lemma RefusedOnly(d: Device)
    requires OneOp(d.db, Pending) && d.inFlight == {0}
    ensures Interpret(d.db, 0, Refusal("")) == MarkRejected("")
    ensures EditOf(Next(d, DoMark(0, Refusal(""), 0)).db.ops, 0, KEY)
  {
    MarkWritesRows(d.db, 0, MarkRejected(""), 0);
  }

  /** A create that is refused: discarding it changes nothing. */
  lemma RefusedCreateIsKept(now: Time)
    ensures var sent := Run(Next(NEW_DEVICE, DoEdit(CREATE)), [DoFetch(0, 1)]);
      var refused := Next(sent, DoMark(0, Refusal(""), 0));
      && Next(refused, DoDiscard(0, now)) == refused
      && |refused.db.ops| == 1 && refused.db.ops[0].state == Rejected
  {
    var created := Next(NEW_DEVICE, DoEdit(CREATE));
    CreatePending();
    FirstSent(created);
    RunOne(created, [], DoFetch(0, 1));
    assert [] + [DoFetch(0, 1)] == [DoFetch(0, 1)];
    RefusedOnly(Next(created, DoFetch(0, 1)));
    MarkWritesRows(created.db, 0, MarkRejected(""), 0);
    assert Run(NEW_DEVICE, []) == NEW_DEVICE;
    RefusedCreateStays([], CREATE, [DoFetch(0, 1)], Refusal(""), "", 0, [], 0, now);
  }

  // ----- a release between two pages -----

  lemma ReachedNext(steps: seq<Step>, n: nat)
    requires n < |steps|
    ensures Reached(steps, n + 1) == Next(Reached(steps, n), steps[n]) && Reached(steps, 0) == NEW_DEVICE
  {
    assert steps[..n + 1][..n] == steps[..n];
  }

  const ARCHIVED := Entry(1, TxDelete(KEY, 5))
  const RELEASE := DoRelease("", {0}, {Origin("", "", "")})
  const LOSING := [
    DoEdit(CREATE), DoQuarantine("", "r"), ServerCommit(ARCHIVED), DoPullBegin, DoPullPage(1, 0), RELEASE,
      DoPullPage(1, 0)]

  /** The created transaction is live and its operation unsettled. */
  predicate Live(db: Db, quarantined: bool) {
    && |db.ops| == 1 && db.ops[0].key == KEY && db.ops[0].Unsettled() && OriginOf(db.ops[0]) == Origin("", "", "")
    && db.ops[0].quarantine.Some? == quarantined && KEY in db.txs && db.txs[KEY].deletedAt.None?
  }

  lemma CreatedLive()
    ensures var d := Next(NEW_DEVICE, DoEdit(CREATE));
      Live(d.db, false) && d == NEW_DEVICE.(db := d.db) && d.db.cursor.None?
  {
    OneSelected();
  }

  lemma QuarantinedLive(d: Device)
    requires Live(d.db, false)
    ensures var next := Next(d, DoQuarantine("", "r"));
      Live(next.db, true) && next == d.(db := next.db) && next.db.cursor == d.db.cursor
  {
  }

  lemma PageOfOne(cursor: nat)
    requires cursor <= 1
    ensures PullPage([ARCHIVED], cursor, 1) == Page(cursor, 1, 1, false)
  {
    assert [ARCHIVED][1..] == [];
    assert After([ARCHIVED], cursor) == cursor;
  }

  lemma OneChange(db: Db, change: Change, now: Time)
    ensures ApplyChanges(db, [change], now) == ApplyChange(db, change, now)
  {
    assert [change][1..] == [];
    assert ApplyChanges(ApplyChange(db, change, now), [], now) == ApplyChange(db, change, now);
  }

  lemma SkippedPage(d: Device)
    requires Live(d.db, true) && d.log == [ARCHIVED] && d.pull == Some(0) && d.applied == {}
    ensures var next := Next(d, DoPullPage(1, 0));
      next.db == d.db.(cursor := Some(1)) && next.log == d.log && next.pull == Some(1) && next.applied == {}
  {
    PageOfOne(0);
    assert Skips(d.db, ARCHIVED.change);
    OneChange(d.db, ARCHIVED.change, 0);
    assert d.log[0..1] == [ARCHIVED] && Changes([ARCHIVED]) == [ARCHIVED.change];
    assert forall i :: 0 <= i < 1 ==> Skips(d.db, d.log[i].change);
  }

  lemma ReleasedLive(d: Device)
    requires Live(d.db, true)
    ensures var next := Next(d, RELEASE); Live(next.db, false) && next == d.(db := next.db) && next.db.cursor.None?
  {
    assert Releasable(d.db.ops, {0}, "", {Origin("", "", "")}, 0);
  }

  lemma EmptyPage(d: Device)
    requires Live(d.db, false) && d.log == [ARCHIVED] && d.pull == Some(1) && d.applied == {}
    ensures var next := Next(d, DoPullPage(1, 0));
      next.db == d.db.(cursor := Some(1)) && next.log == d.log && next.pull == Some(1) && next.applied == {}
  {
    PageOfOne(1);
    assert d.log[1..1] == [] && Changes([]) == [];
  }

  /** A reachable device that has lost a change: the server has archived the transaction, the cursor
      stands at the end of the log, nothing is quarantined, and the transaction is live. */
  lemma ReleaseLosesArchive()
    ensures var d := Run(NEW_DEVICE, LOSING);
      && Position(d) == |d.log| == 1 && d.log[0] == ARCHIVED
      && KEY in d.db.txs && d.db.txs[KEY].deletedAt.None? && !QuarantinedKey(d.db.ops, KEY)
      && Passed(d, 0) && !NothingLost(d)
  {
    FirstSteps();
    ReachedNext(LOSING, 4);
    SkippedPage(Reached(LOSING, 4));
    ReachedNext(LOSING, 5);
    ReleasedLive(Reached(LOSING, 5));
    ReachedNext(LOSING, 6);
    EmptyPage(Reached(LOSING, 6));
    assert LOSING[..7] == LOSING;
    RunsKnowCursors(LOSING);
    LossShown(Run(NEW_DEVICE, LOSING));
  }

  lemma FirstSteps()
    ensures var d := Reached(LOSING, 4); Live(d.db, true) && d.log == [ARCHIVED] && d.pull == Some(0) && d.applied == {}
  {
    ReachedNext(LOSING, 0);
    CreatedLive();
    ReachedNext(LOSING, 1);
    QuarantinedLive(Reached(LOSING, 1));
    ReachedNext(LOSING, 2);
    ReachedNext(LOSING, 3);
  }

  lemma LossShown(d: Device)
    requires Live(d.db, false) && d.log == [ARCHIVED] && d.pull == Some(1) && d.applied == {} && d.db.cursor == Some(1)
    ensures Position(d) == 1 && !QuarantinedKey(d.db.ops, KEY)
    ensures CursorsKnown(d) ==> Passed(d, 0) && !NothingLost(d)
  {
    PageOfOne(1);
    assert After(d.log, 1) == 1;
    assert !Skips(d.db, d.log[0].change);
  }

  // ----- a page during a rewind -----

  const OTHER: Key := "o"
  const SERVER_ROW :=
      Txn(1, Sale(0, 0, 0, Cash, None), "", "", "", SyncSynced, PrintPending, PaymentSuccess, Some(1), None, None)
  const UNRELATED := Entry(1, OtherChange("", "", None))
  const UPSERTED := Entry(2, TxUpsert(OTHER, Snapshot(SERVER_ROW, {})))
  const SETUP := [DoEdit(CREATE), DoQuarantine("", "r"), ServerCommit(UNRELATED), ServerCommit(UPSERTED)]
  const PULL := [DoPullBegin, DoPullPage(2, 0), DoPullEnd]
  const REWIND := [RELEASE, DoPullBegin, DoPullPage(1, 0)]

  /** Besides that, the log holds the two rows. */
  predicate TwoRows(d: Device, quarantined: bool) {
    Live(d.db, quarantined) && d.log == [UNRELATED, UPSERTED]
  }

  lemma TwoChanges(db: Db, first: Change, second: Change, now: Time)
    ensures ApplyChanges(db, [first, second], now) == ApplyChange(ApplyChange(db, first, now), second, now)
  {
    assert [first, second][1..] == [second];
    OneChange(ApplyChange(db, first, now), second, now);
  }

  lemma LogPage(limit: nat)
    requires 1 <= limit <= 2
    ensures PullPage([UNRELATED, UPSERTED], 0, limit) == Page(0, limit, limit, limit == 1)
  {
    assert After([UNRELATED, UPSERTED], 0) == 0;
  }

  lemma UpsertShown(db: Db)
    requires Live(db, true)
    ensures var next := ApplyChange(db, UPSERTED.change, 0); Live(next, true) && OTHER in next.txs
  {
    assert KEY != OTHER;
    assert !QuarantinedKey(db.ops, OTHER);
  }

  lemma WholePage(d: Device)
    requires TwoRows(d, true) && d.pull == Some(0)
    ensures var next := Next(d, DoPullPage(2, 0)); TwoRows(next, true) && OTHER in next.db.txs
  {
    LogPage(2);
    TwoChanges(d.db, UNRELATED.change, UPSERTED.change, 0);
    UpsertShown(ApplyChange(d.db, UNRELATED.change, 0));
    assert d.log[0..2] == d.log && Changes(d.log) == [UNRELATED.change, UPSERTED.change];
  }

  lemma FirstRowPage(d: Device)
    requires TwoRows(d, false) && d.pull == Some(0) && OTHER in d.db.txs
    ensures var next := Next(d, DoPullPage(1, 0));
      TwoRows(next, false) && OTHER in next.db.txs && next.db.cursor == Some(1)
  {
    LogPage(1);
    OneChange(d.db, UNRELATED.change, 0);
    assert d.log[0..1] == [UNRELATED] && Changes([UNRELATED]) == [UNRELATED.change];
  }

  lemma TwoCommits(d: Device)
    requires Live(d.db, true) && d.log == []
    ensures var next := Next(Next(d, ServerCommit(UNRELATED)), ServerCommit(UPSERTED));
      next == d.(log := next.log) && TwoRows(next, true)
  {
    assert [] + [UNRELATED] == [UNRELATED] && [UNRELATED] + [UPSERTED] == [UNRELATED, UPSERTED];
  }

  lemma PullBegins(d: Device)
    requires d.db.cursor.None?
    ensures Next(d, DoPullBegin) == d.(pull := Some(0))
  {
  }

  lemma PullEnds(d: Device)
    ensures Next(d, DoPullEnd) == d.(pull := None)
  {
  }

  lemma SetUp()
    ensures var d := Run(NEW_DEVICE, SETUP); TwoRows(d, true) && d.db.cursor.None?
  {
    ReachedNext(SETUP, 0);
    CreatedLive();
    ReachedNext(SETUP, 1);
    QuarantinedLive(Reached(SETUP, 1));
    ReachedNext(SETUP, 2);
    ReachedNext(SETUP, 3);
    TwoCommits(Reached(SETUP, 2));
    assert SETUP[..4] == SETUP;
  }

  lemma PullEnded(d: Device)
    requires TwoRows(d, true) && d.db.cursor.None?
    ensures TwoRows(Run(d, PULL), true) && OTHER in Run(d, PULL).db.txs
  {
    RunThree(d, DoPullBegin, DoPullPage(2, 0), DoPullEnd);
    PullBegins(d);
    var begun := d.(pull := Some(0));
    WholePage(begun);
    PullEnds(Next(begun, DoPullPage(2, 0)));
  }

  lemma Rewound(d: Device)
    requires TwoRows(d, true) && OTHER in d.db.txs
    ensures var next := Run(d, REWIND); TwoRows(next, false) && OTHER in next.db.txs && next.db.cursor == Some(1)
  {
    RunThree(d, RELEASE, DoPullBegin, DoPullPage(1, 0));
    ReleasedLive(d);
    var released := Next(d, RELEASE);
    PullBegins(released);
    FirstRowPage(released.(pull := Some(0)));
  }

  lemma FirstRowOnly(d: Device)
    requires TwoRows(d, false) && d.db.cursor == Some(1)
    ensures Position(d) == 1 && NoOps(d.db.ops, OTHER) && !Upserts(d.log[..1], OTHER)
  {
    assert After(d.log, 1) == 1;
    assert KEY != OTHER && d.log[..1] == [UNRELATED];
  }

  /** A reachable device right after a committed page, with its cursor behind that page, in which a
      transaction without local operations is not the fold of the log up to the cursor. */
  lemma RewindShowsMore()
    ensures var d := Run(NEW_DEVICE, SETUP + PULL + REWIND);
      && Position(d) == 1 && NoOps(d.db.ops, OTHER) && OTHER in d.db.txs
      && TxView(d.db, OTHER) != FoldTx(None, d.log[..Position(d)], OTHER)
  {
    RunAppend(NEW_DEVICE, SETUP, PULL);
    RunAppend(NEW_DEVICE, SETUP + PULL, REWIND);
    SetUp();
    PullEnded(Run(NEW_DEVICE, SETUP));
    Rewound(Run(NEW_DEVICE, SETUP + PULL));
    FirstRowOnly(Run(NEW_DEVICE, SETUP + PULL + REWIND));
    TxViewIsFoldExactly(SETUP + PULL + REWIND, OTHER);
  }

  // ----- an edited transaction follows the log again -----

  const CONFIRMED := Entry(1, TxUpsert(KEY, Snapshot(SERVER_ROW, {})))
  const EDITED := BEFORE + [ServerCommit(CONFIRMED)] + [DoPullBegin]

  lemma CreatedOnEmptyLog()
    ensures var d := Run(NEW_DEVICE, BEFORE); d.log == [] && d.db.cursor.None?
  {
    RunThree(NEW_DEVICE, BEFORE[0], BEFORE[1], BEFORE[2]);
    CreatePending();
    CreatedLive();
    FirstSent(Next(NEW_DEVICE, DoEdit(CREATE)));
  }

  lemma ConfirmedUpserts()
    ensures PullPage([CONFIRMED], 0, 1) == Page(0, 1, 1, false) && Upserts([CONFIRMED], KEY)
  {
    assert After([CONFIRMED], 0) == 0;
    assert [CONFIRMED][0].change.TxUpsert?;
  }

  lemma EditedAndSettled()
    ensures var d := Run(NEW_DEVICE, EDITED);
      d.log == [CONFIRMED] && d.pull == Some(0) && Settled(d.db.ops, KEY) && !NoOps(d.db.ops, KEY)
  {
    CreatedAndSent();
    CreatedOnEmptyLog();
    RunOne(NEW_DEVICE, BEFORE, ServerCommit(CONFIRMED));
    RunOne(NEW_DEVICE, BEFORE + [ServerCommit(CONFIRMED)], DoPullBegin);
    PullOfConfirmed(Run(NEW_DEVICE, BEFORE));
  }

  lemma PullOfConfirmed(d: Device)
    requires OneOp(d.db, Synced) && d.log == [] && d.db.cursor.None?
    ensures var next := Next(Next(d, ServerCommit(CONFIRMED)), DoPullBegin);
      next.log == [CONFIRMED] && next.pull == Some(0) && Settled(next.db.ops, KEY) && !NoOps(next.db.ops, KEY)
  {
    assert [] + [CONFIRMED] == [CONFIRMED];
  }

  /** A created transaction whose operation was applied, and whose row the server then sends: it shows
      the fold of the log. */
  lemma EditedFollowsLog()
    ensures var d := Run(NEW_DEVICE, EDITED);
      var next := Next(d, DoPullPage(1, 0));
      && Settled(d.db.ops, KEY) && !NoOps(d.db.ops, KEY) && Position(next) == |next.log| == 1
      && TxView(next.db, KEY) == FoldTx(None, next.log, KEY)
  {
    var d := Run(NEW_DEVICE, EDITED);
    EditedAndSettled();
    ConfirmedUpserts();
    assert d.log[0..1] == d.log;
    RunsKnowCursors(EDITED);
    PageEnds(d, 1, 0);
    SettledFollowsFold(EDITED, 1, 0, [], KEY);
    assert Next(d, DoPullPage(1, 0)).log[..1] == d.log;
  }

  // ----- a stale list -----

  const PACKAGE := "p"
  const LISTED := Package(1, "", true, None)
  const OFFERED := Entry(1, PackageUpsert(PACKAGE, LISTED))
  const WITHDRAWN := Entry(2, PackageDelete(PACKAGE))
  const SOLD := [ServerCommit(OFFERED), ServerCommit(WITHDRAWN), DoPullBegin, DoPullPage(2, 0)]

  lemma BothCommitted()
    ensures var d := Reached(SOLD, 3); d == NEW_DEVICE.(log := [OFFERED, WITHDRAWN], pull := Some(0))
  {
    ReachedNext(SOLD, 0);
    ReachedNext(SOLD, 1);
    ReachedNext(SOLD, 2);
    assert [] + [OFFERED] == [OFFERED] && [OFFERED] + [WITHDRAWN] == [OFFERED, WITHDRAWN];
  }

  lemma DeletionFolded()
    ensures FoldPackage(None, [OFFERED, WITHDRAWN], PACKAGE) == Some(Shown(1, "", false, true))
    ensures TopRevision([OFFERED, WITHDRAWN], PACKAGE) == Some(1)
  {
    assert [OFFERED, WITHDRAWN][..1] == [OFFERED] && [OFFERED][..0] == [];
    assert FoldPackage(None, [OFFERED], PACKAGE) == Some(Shown(1, "", true, false));
    assert TopRevision([OFFERED], PACKAGE) == Some(1);
  }

  lemma DeletionPulled()
    ensures var d := Run(NEW_DEVICE, SOLD);
      && d.log == [OFFERED, WITHDRAWN] && Position(d) == 2 && Aligned(d)
      && PackageView(d.db, PACKAGE) == Some(Shown(1, "", false, true))
  {
    BothCommitted();
    ReachedNext(SOLD, 3);
    assert SOLD[..4] == SOLD;
    var d := Reached(SOLD, 3);
    assert After(d.log, 0) == 0;
    assert d.log[0..2] == d.log;
    RunsKnowCursors(SOLD[..3]);
    PageEnds(d, 2, 0);
    PackagePageShown(d, 2, 0, PACKAGE);
    DeletionFolded();
  }

  /** The server has offered a package and deleted it again, and the device shows it as deleted. A list
      that the server answered before the deletion arrives late: the package is back, although the
      covered rows hold its revision, and it stays wrong until a new row, list or release arrives. */
  lemma StaleListRevives(more: seq<Step>)
    requires var s := Next(Run(NEW_DEVICE, SOLD), DoStorePackage(PACKAGE, LISTED));
      GoesOn(more, PACKAGE) && Run(s, more).log == s.log
    ensures var d := Run(NEW_DEVICE, SOLD);
      var s := Next(d, DoStorePackage(PACKAGE, LISTED));
      var last := Run(s, more);
      && PackageView(d.db, PACKAGE) == FoldPackage(None, d.log, PACKAGE) == Some(Shown(1, "", false, true))
      && PackageView(s.db, PACKAGE) == Some(Shown(1, "", true, false))
      && Below(PackageView(s.db, PACKAGE), TopRevision(s.log, PACKAGE))
      && Position(last) == |last.log|
      && PackageView(last.db, PACKAGE) != FoldPackage(None, last.log, PACKAGE)
  {
    var d := Run(NEW_DEVICE, SOLD);
    DeletionPulled();
    DeletionFolded();
    var s := Next(d, DoStorePackage(PACKAGE, LISTED));
    assert PackageView(s.db, PACKAGE) == Some(Shown(1, "", true, false));
    assert d.log[..2] == d.log;
    StoredPackageIsFoldExactly(SOLD, PACKAGE, LISTED, more);
    var last := Run(s, more);
    assert last.log[..2] == last.log && last.log[2..2] == [];
  }
}
