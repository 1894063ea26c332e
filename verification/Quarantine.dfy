/** Quarantine: while any operation of a transaction is quarantined nothing the server sends
    touches it, only its origin actor frees an operation, and a blocked scope sends nothing. */
module Quarantine {
  import opened LocalTables
  import opened Repository
  import opened Device
  import opened Frames
  import opened InOrder

  // ----- the freeze -----

  /** The row, items, revisions, conflict records and operations of the key are the same. */
  ghost predicate Frozen(db: Db, next: Db, key: Key) {
    && (key in next.txs <==> key in db.txs) && (key in db.txs ==> next.txs[key] == db.txs[key])
    && (forall r :: (key, r) in next.items <==> (key, r) in db.items)
    && (forall r :: (key, r) in db.items ==> next.items[(key, r)] == db.items[(key, r)])
    && (forall r :: (key, r) in next.revs <==> (key, r) in db.revs)
    && (forall r :: (key, r) in db.revs ==> next.revs[(key, r)] == db.revs[(key, r)])
    && |next.conflicts| == |db.conflicts|
    && (forall c :: 0 <= c < |db.conflicts| ==> next.conflicts[c].key == db.conflicts[c].key)
    && (forall c :: 0 <= c < |db.conflicts| && db.conflicts[c].key == key ==> next.conflicts[c] == db.conflicts[c])
    && |next.ops| == |db.ops|
    && (forall i :: 0 <= i < |db.ops| ==>
       next.ops[i].key == db.ops[i].key && next.ops[i].quarantine == db.ops[i].quarantine)
    && (forall i :: 0 <= i < |db.ops| && db.ops[i].key == key ==> next.ops[i] == db.ops[i])
  }

  lemma FrozenTransitive(a: Db, b: Db, c: Db, key: Key)
    requires Frozen(a, b, key) && Frozen(b, c, key)
    ensures Frozen(a, c, key)
  {
  }

  lemma PulledFreezesOther(db: Db, next: Db, own: Key, key: Key)
    requires PulledInto(db, next, own) && own != key
    ensures Frozen(db, next, key)
  {
    assert forall r :: (key, r) in next.items ==> (key, r) in db.items;
  }

  lemma TxChangeFreezes(db: Db, own: Key, change: Change, key: Key)
    requires (change.TxUpsert? || change.TxDelete?) && own != key
    ensures Frozen(db, ApplyToTx(db, own, change), key)
  {
    ApplyToTxFrame(db, own, change);
    PulledFreezesOther(db, ApplyToTx(db, own, change), own, key);
  }

  lemma OtherRowsFreeze(db: Db, next: Db, key: Key)
    requires next == db.(txs := next.txs, packages := next.packages, entities := next.entities)
    requires (key in next.txs <==> key in db.txs) && (key in db.txs ==> next.txs[key] == db.txs[key])
    ensures Frozen(db, next, key)
  {
  }

  lemma SideChangeFreezes(db: Db, change: Change, now: Time, key: Key)
    requires QuarantinedKey(db.ops, key) && !change.TxUpsert? && !change.TxDelete?
    ensures Frozen(db, ApplyChange(db, change, now), key)
  {
    OtherRowsFreeze(db, ApplyChange(db, change, now), key);
  }

  lemma ChangeFreezes(db: Db, change: Change, now: Time, key: Key)
    requires QuarantinedKey(db.ops, key)
    ensures Frozen(db, ApplyChange(db, change, now), key)
  {
    if !change.TxUpsert? && !change.TxDelete? {
      SideChangeFreezes(db, change, now, key);
    } else if !QuarantinedKey(db.ops, change.key) {
      TxChangeFreezes(db, change.key, change, key);
    }
  }

  lemma {:induction false} ChangesFreeze(db: Db, changes: seq<Change>, now: Time, key: Key)
    requires QuarantinedKey(db.ops, key)
    ensures Frozen(db, ApplyChanges(db, changes, now), key)
    decreases |changes|
  {
    if changes != [] {
      var mid := ApplyChange(db, changes[0], now);
      ChangeFreezes(db, changes[0], now, key);
      assert QuarantinedKey(mid.ops, key);
      ChangesFreeze(mid, changes[1..], now, key);
      FrozenTransitive(db, mid, ApplyChanges(mid, changes[1..], now), key);
    }
  }

  /** No page, whatever it holds, touches a transaction with quarantined evidence. */
  lemma PullsFreeze(db: Db, changes: seq<Change>, nextCursor: nat, now: Time, key: Key)
    requires QuarantinedKey(db.ops, key)
    ensures Frozen(db, ApplyPage(db, changes, nextCursor, now), key)
  {
    ChangesFreeze(db, changes, now, key);
  }

  // ----- flags -----

  /** Old rows keep their flags, and a new row is flagged when the scope or its key is. */
  ghost predicate FlagsInherited(db: Db, next: Db) {
    && |db.ops| <= |next.ops|
    && (forall i :: 0 <= i < |db.ops| ==>
       next.ops[i].quarantine == db.ops[i].quarantine && next.ops[i].key == db.ops[i].key)
    && (forall i :: |db.ops| <= i < |next.ops| ==>
          (next.ops[i].quarantine.Some? <==> db.blocked.Some? || QuarantinedKey(db.ops, next.ops[i].key)))
  }

  lemma EditFlags(db: Db, edit: Edit)
    requires ApplyEdit(db, edit).Committed?
    ensures FlagsInherited(db, ApplyEdit(db, edit).db)
  {
  }

  lemma MarkFlags(db: Db, i: OpId, result: MarkResult, now: Time)
    requires i < |db.ops|
    ensures FlagsInherited(db, Mark(db, i, result, now))
  {
    MarkWritesRows(db, i, result, now);
  }

  lemma DiscardFlags(db: Db, i: OpId, now: Time)
    requires Discard(db, i, now).Committed?
    ensures FlagsInherited(db, Discard(db, i, now).db)
  {
    DiscardFrame(db, i, now);
  }

  lemma ResolveFlags(db: Db, id: nat, shown: ConflictRow, resolution: Resolution, signing: Signing)
    requires Resolve(db, id, shown, resolution, signing).Committed?
    ensures FlagsInherited(db, Resolve(db, id, shown, resolution, signing).db)
  {
    ResolveAppends(db, id, shown, resolution, signing);
    var source := ConflictSource(db.ops, shown.key, 0).value;
    var next := Resolve(db, id, shown, resolution, signing).db;
    if next.ops == Closed(db.ops, source, shown.key) {
      ClosedFlags(db.ops, source, shown.key);
    } else {
      var signed: Signed :|
        next.ops == Closed(db.ops + [NewOp(db, signed, signing.signature, shown.key)], source, shown.key);
      ClosedFlags(db.ops + [NewOp(db, signed, signing.signature, shown.key)], source, shown.key);
    }
  }

  /** The one row a resolution may add is a new operation of its key. */
  lemma ResolveAppends(db: Db, id: nat, shown: ConflictRow, resolution: Resolution, signing: Signing)
    requires Resolve(db, id, shown, resolution, signing).Committed?
    ensures var next, key := Resolve(db, id, shown, resolution, signing).db, shown.key;
      && ConflictSource(db.ops, key, 0).Some?
      && var source := ConflictSource(db.ops, key, 0).value;
      || next.ops == Closed(db.ops, source, key)
      || exists signed: Signed :: next.ops == Closed(db.ops + [NewOp(db, signed, signing.signature, key)], source, key)
  {
  }

  lemma ClosedFlags(ops: seq<Op>, source: OpId, key: Key)
    requires source < |ops|
    ensures var closed := Closed(ops, source, key);
      forall i :: 0 <= i < |ops| ==> closed[i].quarantine == ops[i].quarantine && closed[i].key == ops[i].key
  {
  }

  lemma {:induction false} ChangesKeepFlags(db: Db, changes: seq<Change>, now: Time)
    ensures FlagsInherited(db, ApplyChanges(db, changes, now)) && |ApplyChanges(db, changes, now).ops| == |db.ops|
    decreases |changes|
  {
    if changes != [] {
      ApplyChangeOps(db, changes[0], now);
      ChangesKeepFlags(ApplyChange(db, changes[0], now), changes[1..], now);
    }
  }

  /** Every step but quarantining and releasing keeps all flags and passes them to new rows. */
  lemma StepFlags(d: Device, step: Step)
    requires !step.DoQuarantine? && !step.DoRelease?
    ensures FlagsInherited(d.db, Next(d, step).db)
  {
    var db := d.db;
    if step.DoEdit? {
      if ApplyEdit(db, step.edit).Committed? { EditFlags(db, step.edit); }
    } else if step.DoMark? {
      if step.op < |db.ops| { MarkFlags(db, step.op, Interpret(db, step.op, step.answer), step.now); }
    } else if step.DoDiscard? {
      if Discard(db, step.op, step.now).Committed? { DiscardFlags(db, step.op, step.now); }
    } else if step.DoResolve? {
      if Resolve(db, step.id, step.shown, step.resolution, step.signing).Committed? {
        ResolveFlags(db, step.id, step.shown, step.resolution, step.signing);
      }
    } else if step.DoPullPage? {
      if d.pull.Some? {
        var page := PullPage(d.log, d.pull.value, step.limit);
        ChangesKeepFlags(db, Changes(d.log[page.start..page.end]), step.now);
      }
    }
  }

  predicate Flagged(ops: seq<Op>, i: OpId) { i < |ops| && ops[i].quarantine.Some? }

  /** The step frees row `i` on behalf of its origin actor, whose origin the server allowed. */
  predicate FreedByOrigin(ops: seq<Op>, i: OpId, step: Step) {
    i < |ops| && step.DoRelease? && step.actor == ops[i].signed.originActor && OriginOf(ops[i]) in step.allowed
  }

  lemma OnlyReleaseFrees(d: Device, step: Step, i: OpId)
    requires Flagged(d.db.ops, i) && !Flagged(Next(d, step).db.ops, i)
    ensures FreedByOrigin(d.db.ops, i, step)
  {
    if !step.DoQuarantine? && !step.DoRelease? { StepFlags(d, step); }
  }

  /** Along any run: if a quarantined operation is free at the end, its own origin actor released it. */
  lemma {:induction false} FreedOnlyByOrigin(steps: seq<Step>, more: seq<Step>, i: OpId)
    requires Flagged(Run(NEW_DEVICE, steps).db.ops, i) && !Flagged(Run(NEW_DEVICE, steps + more).db.ops, i)
    ensures exists k :: 0 <= k < |more| && FreedByOrigin(Run(NEW_DEVICE, steps).db.ops, i, more[k])
    decreases |more|
  {
    assert more == [] ==> steps + more == steps;
    if more != [] {
      var cut := |more| - 1;
      assert (steps + more)[..|steps + more| - 1] == steps + more[..cut];
      var mid := Run(NEW_DEVICE, steps + more[..cut]);
      RunsKeepEvidence(steps, more[..cut]);
      if Flagged(mid.db.ops, i) {
        OnlyReleaseFrees(mid, more[cut], i);
        assert FreedByOrigin(Run(NEW_DEVICE, steps).db.ops, i, more[cut]);
      } else {
        FreedOnlyByOrigin(steps, more[..cut], i);
        var k :| 0 <= k < cut && FreedByOrigin(Run(NEW_DEVICE, steps).db.ops, i, more[..cut][k]);
        assert more[k] == more[..cut][k];
      }
    }
  }

  // ----- a blocked scope is silent -----

  /** The scope is blocked and every unsettled operation is quarantined. */
  ghost predicate Silenced(db: Db) {
    db.blocked.Some? && forall i :: 0 <= i < |db.ops| && db.ops[i].Unsettled() ==> db.ops[i].quarantine.Some?
  }

  /** No settled operation becomes unsettled again, and the block stays. */
  ghost predicate SettledStays(db: Db, next: Db) {
    && next.blocked == db.blocked && |db.ops| <= |next.ops|
    && forall i :: 0 <= i < |db.ops| && next.ops[i].Unsettled() ==> db.ops[i].Unsettled()
  }

  lemma EditSettles(db: Db, edit: Edit)
    requires ApplyEdit(db, edit).Committed?
    ensures SettledStays(db, ApplyEdit(db, edit).db)
  {
  }

  lemma MarkSettles(db: Db, i: OpId, result: MarkResult, now: Time)
    requires i < |db.ops| && db.ops[i].Unsent()
    ensures SettledStays(db, Mark(db, i, result, now))
  {
    MarkShape(db, i, result, now);
  }

  lemma DiscardSettles(db: Db, i: OpId, now: Time)
    requires Discard(db, i, now).Committed?
    ensures SettledStays(db, Discard(db, i, now).db)
  {
    DiscardFrame(db, i, now);
  }

  lemma ResolveSettles(db: Db, id: nat, shown: ConflictRow, resolution: Resolution, signing: Signing)
    requires Resolve(db, id, shown, resolution, signing).Committed?
    ensures SettledStays(db, Resolve(db, id, shown, resolution, signing).db)
  {
  }

  lemma {:induction false} ChangesSettle(db: Db, changes: seq<Change>, now: Time)
    ensures SettledStays(db, ApplyChanges(db, changes, now))
    decreases |changes|
  {
    if changes != [] {
      ChangeSettles(db, changes[0], now);
      ChangesSettle(ApplyChange(db, changes[0], now), changes[1..], now);
    }
  }

  lemma ChangeSettles(db: Db, change: Change, now: Time)
    ensures SettledStays(db, ApplyChange(db, change, now)) && |ApplyChange(db, change, now).ops| == |db.ops|
  {
    if change.TxUpsert? || change.TxDelete? { ApplyToTxFrame(db, change.key, change); }
  }

  lemma StepSettles(d: Device, step: Step)
    requires Ordered(d) && !step.DoQuarantine? && !step.DoRelease? && !step.DoRevalidateScope?
    ensures SettledStays(d.db, Next(d, step).db)
  {
    var db := d.db;
    if step.DoEdit? {
      if ApplyEdit(db, step.edit).Committed? { EditSettles(db, step.edit); }
    } else if step.DoMark? {
      if step.op in d.inFlight { MarkSettles(db, step.op, Interpret(db, step.op, step.answer), step.now); }
    } else if step.DoDiscard? {
      if Discard(db, step.op, step.now).Committed? { DiscardSettles(db, step.op, step.now); }
    } else if step.DoResolve? {
      if Resolve(db, step.id, step.shown, step.resolution, step.signing).Committed? {
        ResolveSettles(db, step.id, step.shown, step.resolution, step.signing);
      }
    } else if step.DoPullPage? {
      if d.pull.Some? {
        var page := PullPage(d.log, d.pull.value, step.limit);
        ChangesSettle(db, Changes(d.log[page.start..page.end]), step.now);
      }
    }
  }

  lemma StepKeepsSilence(d: Device, step: Step)
    requires Ordered(d) && Silenced(d.db) && !step.DoRelease? && !step.DoRevalidateScope?
    ensures Silenced(Next(d, step).db)
  {
    if !step.DoQuarantine? {
      StepSettles(d, step);
      StepFlags(d, step);
    }
  }

  /** From the moment a scope is blocked, through any run without a release or a revalidation of the
      scope, whatever the user does: every unsettled operation, new ones included, is quarantined,
      and a fetch finds nothing to send. */
  lemma {:induction false} BlockedSendsNothing(steps: seq<Step>, actor: Actor, reason: string, more: seq<Step>,
      now: Time, limit: nat)
    requires forall n :: 0 <= n < |more| ==> !more[n].DoRelease? && !more[n].DoRevalidateScope?
    ensures var d := Run(Next(Run(NEW_DEVICE, steps), DoQuarantine(actor, reason)), more);
      Ordered(d) && Silenced(d.db) && Batch(d.db.ops, 0, now, limit) == []
    decreases |more|
  {
    var blocked := Next(Run(NEW_DEVICE, steps), DoQuarantine(actor, reason));
    RunsAreOrdered(steps);
    StepKeepsOrder(Run(NEW_DEVICE, steps), DoQuarantine(actor, reason));
    if more != [] {
      var cut := |more| - 1;
      BlockedSendsNothing(steps, actor, reason, more[..cut], now, limit);
      StepKeepsOrder(Run(blocked, more[..cut]), more[cut]);
      StepKeepsSilence(Run(blocked, more[..cut]), more[cut]);
    }
    SilentBatch(Run(blocked, more).db.ops, 0, now, limit);
  }

  lemma {:induction false} SilentBatch(ops: seq<Op>, from: nat, now: Time, limit: nat)
    requires from <= |ops| && forall i :: 0 <= i < |ops| && ops[i].Unsettled() ==> ops[i].quarantine.Some?
    ensures Batch(ops, from, now, limit) == []
    decreases |ops| - from
  {
    if from < |ops| && limit > 0 { SilentBatch(ops, from + 1, now, limit); }
  }


  /** A release frees exactly the quarantined operations of the actor among the rows whose origin was
      allowed, and it resets the cursor exactly if there are any. */
  lemma ReleaseFreesExactly(d: Device, actor: Actor, rows: set<OpId>, allowed: set<Origin>, i: OpId)
    requires i < |d.db.ops| && d.db.ops[i].quarantine.Some?
    ensures var next, signed := Next(d, DoRelease(actor, rows, allowed)).db, d.db.ops[i].signed;
      && |next.ops| == |d.db.ops|
      && next.ops[i] == d.db.ops[i].(quarantine := next.ops[i].quarantine)
      && (next.ops[i].quarantine.None? <==>
            && i in rows && signed.originActor == actor
            && Origin(signed.originSession, signed.originActor, signed.terminal) in allowed)
      && (next.ops[i].quarantine.None? ==> next.cursor.None?)
      && (next.ops == d.db.ops ==> next.cursor == d.db.cursor)
  {
    if j :| 0 <= j < |d.db.ops| && Releasable(d.db.ops, rows, actor, allowed, j) {
      assert Next(d, DoRelease(actor, rows, allowed)).db.ops[j] != d.db.ops[j];
    }
  }

  /** Blocking a scope records the reason, and the actor exactly if it is about the actor's access;
      every unsettled operation gets the reason, and nothing else changes. */
  lemma BlockWrites(d: Device, actor: Actor, reason: string, i: OpId)
    requires i < |d.db.ops|
    ensures var next := Next(d, DoQuarantine(actor, reason)).db;
      var personal := "MEMBERSHIP_" <= reason || reason in {"ACCOUNT_ACCESS_CHANGED", "SESSION_INVALID"};
      && next.blocked == Some(Block(reason, if personal then Some(actor) else None))
      && |next.ops| == |d.db.ops| && next == d.db.(ops := next.ops, blocked := next.blocked)
      && next.ops[i] == d.db.ops[i].(quarantine := next.ops[i].quarantine)
      && next.ops[i].quarantine == if d.db.ops[i].state in {Pending, Error, Conflict, Rejected} then Some(reason)
        else d.db.ops[i].quarantine
  {
  }

  /** Once access is revalidated, a new operation is quarantined exactly if its transaction still has a
      quarantined one; nothing but the block is lifted. */
  lemma RevalidationReopens(d: Device, signed: Signed, signature: string, key: Key)
    ensures var next := Next(d, DoRevalidateScope).db;
      && next == d.db.(blocked := None)
      && (NewOp(next, signed, signature, key).quarantine.Some?
          <==> exists i :: 0 <= i < |d.db.ops| && d.db.ops[i].key == key && d.db.ops[i].quarantine.Some?)
  {
    assert QuarantinedKey(d.db.ops, key)
      <==> exists i :: 0 <= i < |d.db.ops| && d.db.ops[i].key == key && d.db.ops[i].quarantine.Some?;
  }
}
