/** The per-connection ticket queue of runLocalTransaction: every await is a point where other
    callers run, yet the committed works are those works run one after another. Some callers run a
    statement on the same connection without queueing; it joins whatever transaction is open. */
module LocalTransaction {
  import opened LocalTables

  /** Waiting for its turn; between BEGIN and COMMIT or ROLLBACK; left the queue. */
  datatype Turn = Waiting | Inside | Left

  /** One call: the statements its work has executed so far, and whether they were committed. */
  datatype Ticket<S> = Ticket(turn: Turn, statements: seq<S>, committed: bool)

  /** One statement run outside the queue, and the call whose transaction was open then. */
  datatype Outsider<S> = Outsider(statement: S, joined: Option<nat>)

  /** What the connection executed: a statement of a work, or the statement of an outsider. */
  datatype Logged<S> = OfWork(statement: S) | OfOutsider(outsider: nat)

  /** The connection: what is durable, what the open transaction holds, the call that opened it (if
      one is open), every call and every outsider so far. `Tail` of the source is implied: a
      ticket's `previous` resolves when every earlier ticket has released its turn. */
  datatype Connection<S> = Connection(
    durable: seq<Logged<S>>,
    pending: seq<Logged<S>>,
    owner: Option<nat>,
    tickets: seq<Ticket<S>>,
    outsiders: seq<Outsider<S>>)

  datatype ConnectionStep<S> =
    | Enqueue
    | Begin(ticket: nat, ok: bool)
    | Execute(ticket: nat, statement: S)
    | Commit(ticket: nat, ok: bool, rolledBack: bool)
    | Throw(ticket: nat, rolledBack: bool)
    | Direct(statement: S)

  predicate MayEnter<S>(c: Connection<S>, t: nat) {
    t < |c.tickets| && c.tickets[t].turn == Waiting && forall e :: 0 <= e < t ==> c.tickets[e].turn == Left
  }

  function Leave<S>(c: Connection<S>, t: nat, committed: bool): Connection<S>
    requires t < |c.tickets|
  {
    c.(tickets := c.tickets[t := c.tickets[t].(turn := Left, committed := committed)])
  }

  /** After an error: ROLLBACK if a transaction is open; its own failure is swallowed. */
  function RollBack<S>(c: Connection<S>, rolledBack: bool): Connection<S> {
    if c.owner.Some? && rolledBack then c.(pending := [], owner := None) else c
  }

  predicate IsInside<S>(c: Connection<S>, t: nat) { t < |c.tickets| && c.tickets[t].turn == Inside }

  function NextConnection<S>(c: Connection<S>, step: ConnectionStep<S>): Connection<S> {
    match step
    case Enqueue => c.(tickets := c.tickets + [Ticket(Waiting, [], false)])
    case Begin(t, ok) =>
      if !MayEnter(c, t) then c
      else if c.owner.Some? || !ok then Leave(c, t, false)
      else c.(owner := Some(t), pending := [], tickets := c.tickets[t := c.tickets[t].(turn := Inside)])
    case Execute(t, statement) =>
      if !IsInside(c, t) then c
      else
        var ticket := c.tickets[t];
        c.(pending := c.pending + [OfWork(statement)],
           tickets := c.tickets[t := ticket.(statements := ticket.statements + [statement])])
    case Commit(t, ok, rolledBack) =>
      if !IsInside(c, t) then c
      else if ok then Leave(c.(durable := c.durable + c.pending, pending := [], owner := None), t, true)
      else Leave(RollBack(c, rolledBack), t, false)
    case Throw(t, rolledBack) =>
      if !IsInside(c, t) then c else Leave(RollBack(c, rolledBack), t, false)
    case Direct(statement) =>
      var logged := OfOutsider(|c.outsiders|);
      var noted := c.(outsiders := c.outsiders + [Outsider(statement, c.owner)]);
      if c.owner.Some? then noted.(pending := c.pending + [logged]) else noted.(durable := c.durable + [logged])
  }

  function RunConnection<S>(c: Connection<S>, steps: seq<ConnectionStep<S>>): Connection<S>
    decreases |steps|
  {
    if steps == [] then c else NextConnection(RunConnection(c, steps[..|steps| - 1]), steps[|steps| - 1])
  }

  function Fresh<S>(): Connection<S> { Connection([], [], None, [], []) }

  /** The statements of works, in the order they were executed. */
  function Works<S>(log: seq<Logged<S>>): seq<S>
    decreases |log|
  {
    if log == [] then []
    else
      var last := log[|log| - 1];
      Works(log[..|log| - 1]) + if last.OfWork? then [last.statement] else []
  }

  /** The statements of the committed works, one whole work after another in ticket order. */
  function Serial<S>(tickets: seq<Ticket<S>>): seq<S>
    decreases |tickets|
  {
    if tickets == [] then []
    else
      var last := tickets[|tickets| - 1];
      Serial(tickets[..|tickets| - 1]) + if last.committed then last.statements else []
  }

  lemma {:induction false} WorksJoin<S>(a: seq<Logged<S>>, b: seq<Logged<S>>)
    ensures Works(a + b) == Works(a) + Works(b)
    decreases |b|
  {
    if b == [] {
      assert a + b == a;
    } else {
      assert (a + b)[..|a + b| - 1] == a + b[..|b| - 1];
      WorksJoin(a, b[..|b| - 1]);
    }
  }

  lemma WorksOne<S>(logged: Logged<S>)
    ensures Works([logged]) == if logged.OfWork? then [logged.statement] else []
  {
    assert [logged][..0] == [];
  }

  // ----- the queue -----

  /** The queue discipline: at most one ticket is inside, everything before it has left, and nothing
      behind it has entered or executed anything. An open transaction belongs to a call that has
      not committed, and holds the work of that call while it is inside. */
  ghost predicate Queued<S>(c: Connection<S>) {
    && (forall t, e :: 0 <= e < t < |c.tickets| && c.tickets[t].turn != Waiting ==> c.tickets[e].turn == Left)
    && (forall t :: 0 <= t < |c.tickets| && c.tickets[t].turn == Waiting ==> c.tickets[t].statements == [])
    && (forall t :: 0 <= t < |c.tickets| && c.tickets[t].committed ==> c.tickets[t].turn == Left)
    && (forall t: nat :: IsInside(c, t) ==> c.owner == Some(t) && Works(c.pending) == c.tickets[t].statements)
    && (c.owner.Some? ==> c.owner.value < |c.tickets| && c.tickets[c.owner.value].turn != Waiting
                          && !c.tickets[c.owner.value].committed)
  }

  lemma EntryIsQueued<S>(c: Connection<S>, step: ConnectionStep<S>)
    requires Queued(c) && (step.Enqueue? || step.Begin?)
    ensures Queued(NextConnection(c, step))
  {
    var next := NextConnection(c, step);
    assert forall t: nat :: t < |c.tickets| && !(step.Begin? && t == step.ticket) ==> next.tickets[t] == c.tickets[t];
    forall t: nat | IsInside(next, t)
      ensures next.owner == Some(t) && Works(next.pending) == next.tickets[t].statements
    {
      assert t < |c.tickets|;
      assert next.tickets[t] == c.tickets[t] ==> IsInside(c, t);
    }
  }

  lemma ExecutionIsQueued<S>(c: Connection<S>, step: ConnectionStep<S>)
    requires Queued(c) && (step.Execute? || step.Direct?)
    ensures Queued(NextConnection(c, step))
  {
    var logged := if step.Execute? then OfWork(step.statement) else OfOutsider(|c.outsiders|);
    WorksJoin(c.pending, [logged]);
    WorksOne(logged);
    var next := NextConnection(c, step);
    forall t: nat | IsInside(next, t)
      ensures next.owner == Some(t) && Works(next.pending) == next.tickets[t].statements
    {
      assert IsInside(c, t);
    }
  }

  lemma ExitIsQueued<S>(c: Connection<S>, step: ConnectionStep<S>)
    requires Queued(c) && (step.Commit? || step.Throw?)
    ensures Queued(NextConnection(c, step))
  {
    var next := NextConnection(c, step);
    if IsInside(c, step.ticket) {
      forall t: nat ensures !IsInside(next, t) { assert IsInside(c, t) ==> t == step.ticket; }
    }
  }

  lemma StepIsQueued<S>(c: Connection<S>, step: ConnectionStep<S>)
    requires Queued(c)
    ensures Queued(NextConnection(c, step))
  {
    match step
    case Enqueue => EntryIsQueued(c, step);
    case Begin(_, _) => EntryIsQueued(c, step);
    case Execute(_, _) => ExecutionIsQueued(c, step);
    case Direct(_) => ExecutionIsQueued(c, step);
    case Commit(_, _, _) => ExitIsQueued(c, step);
    case Throw(_, _) => ExitIsQueued(c, step);
  }

  // ----- what is durable -----

  /** A ticket's change of state adds its work at the end when it commits, and nothing otherwise:
      every later ticket is still waiting. */
  lemma {:induction false} SerialUpdate<S>(tickets: seq<Ticket<S>>, t: nat, ticket: Ticket<S>)
    requires t < |tickets| && !tickets[t].committed
    requires forall e :: t < e < |tickets| ==> !tickets[e].committed
    ensures Serial(tickets[t := ticket]) == Serial(tickets) + if ticket.committed then ticket.statements else []
    decreases |tickets|
  {
    var cut := |tickets| - 1;
    if t < cut {
      assert tickets[t := ticket][..cut] == tickets[..cut][t := ticket];
      SerialUpdate(tickets[..cut], t, ticket);
    } else {
      assert tickets[t := ticket][..cut] == tickets[..cut];
    }
  }

  lemma OutsiderIsSerial<S>(c: Connection<S>, statement: S)
    requires Works(c.durable) == Serial(c.tickets)
    ensures Works(NextConnection(c, Direct(statement)).durable) == Serial(c.tickets)
  {
    WorksJoin(c.durable, [OfOutsider(|c.outsiders|)]);
    WorksOne<S>(OfOutsider(|c.outsiders|));
  }

  lemma CommitIsSerial<S>(c: Connection<S>, t: nat)
    requires Queued(c) && IsInside(c, t) && Works(c.durable) == Serial(c.tickets)
    ensures Works(c.durable + c.pending) == Serial(Leave(c, t, true).tickets)
  {
    WorksJoin(c.durable, c.pending);
    SerialUpdate(c.tickets, t, c.tickets[t].(turn := Left, committed := true));
  }

  /** A call that moves without committing changes nothing that counts. */
  lemma MoveIsSerial<S>(c: Connection<S>, t: nat, ticket: Ticket<S>)
    requires Queued(c) && t < |c.tickets| && c.tickets[t].turn != Left && !ticket.committed
    ensures Serial(c.tickets[t := ticket]) == Serial(c.tickets)
  {
    SerialUpdate(c.tickets, t, ticket);
  }

  lemma StepIsSerial<S>(c: Connection<S>, step: ConnectionStep<S>)
    requires Queued(c) && Works(c.durable) == Serial(c.tickets)
    ensures Works(NextConnection(c, step).durable) == Serial(NextConnection(c, step).tickets)
  {
    var next := NextConnection(c, step);
    if step.Enqueue? {
      assert next.tickets[..|c.tickets|] == c.tickets;
    } else if step.Direct? {
      OutsiderIsSerial(c, step.statement);
    } else if next != c {
      if step.Commit? && step.ok {
        CommitIsSerial(c, step.ticket);
      } else {
        MoveIsSerial(c, step.ticket, next.tickets[step.ticket]);
      }
    }
  }

  /** The outsider's statement ran when no transaction was open, or the one it joined committed. */
  predicate Survives<S>(c: Connection<S>, i: nat)
    requires i < |c.outsiders|
  {
    var joined := c.outsiders[i].joined;
    joined.None? || (joined.value < |c.tickets| && c.tickets[joined.value].committed)
  }

  /** Every outsider is durable, or in the open transaction, or gone. */
  ghost predicate Accounted<S>(c: Connection<S>) {
    && (forall i: nat :: OfOutsider(i) in c.durable ==> i < |c.outsiders|)
    && (forall i: nat :: OfOutsider(i) in c.pending ==> i < |c.outsiders|)
    && (forall i: nat :: i < |c.outsiders| ==> (OfOutsider(i) in c.durable <==> Survives(c, i)))
    && (forall i: nat :: i < |c.outsiders| && c.outsiders[i].joined.Some? ==>
          c.outsiders[i].joined.value < |c.tickets| && c.tickets[c.outsiders[i].joined.value].turn != Waiting)
    && (c.owner.Some? ==> forall i: nat :: i < |c.outsiders| ==>
       (OfOutsider(i) in c.pending <==> c.outsiders[i].joined == c.owner))
  }

  lemma EntryIsAccounted<S>(c: Connection<S>, step: ConnectionStep<S>)
    requires Queued(c) && Accounted(c) && (step.Enqueue? || step.Begin?)
    ensures Accounted(NextConnection(c, step))
  {
  }

  lemma ExecutionIsAccounted<S>(c: Connection<S>, step: ConnectionStep<S>)
    requires Queued(c) && Accounted(c) && (step.Execute? || step.Direct?)
    ensures Accounted(NextConnection(c, step))
  {
  }

  lemma ExitIsAccounted<S>(c: Connection<S>, step: ConnectionStep<S>)
    requires Queued(c) && Accounted(c) && (step.Commit? || step.Throw?)
    ensures Accounted(NextConnection(c, step))
  {
    assert IsInside(c, step.ticket) ==> c.owner == Some(step.ticket);
  }

  /** In every interleaving at most one work is inside a transaction, works enter in the order of
      the calls, and what is durable of works is exactly the committed works run one after another:
      works never mix and a failed work leaves nothing. */
  lemma {:induction false} TransactionsAreSerial<S>(steps: seq<ConnectionStep<S>>)
    ensures var c := RunConnection(Fresh(), steps);
      Queued(c) && Works(c.durable) == Serial(c.tickets)
    decreases |steps|
  {
    if steps != [] {
      TransactionsAreSerial(steps[..|steps| - 1]);
      var before := RunConnection(Fresh(), steps[..|steps| - 1]);
      StepIsQueued(before, steps[|steps| - 1]);
      StepIsSerial(before, steps[|steps| - 1]);
    }
  }

  /** A statement run outside the queue is durable exactly if no transaction was open when it ran,
      or the work whose transaction was open has committed: it is lost with a work that fails. */
  lemma {:induction false} OutsiderDurableExactly<S>(steps: seq<ConnectionStep<S>>)
    ensures var c := RunConnection(Fresh(), steps);
      Accounted(c) && forall i: nat :: i < |c.outsiders| ==> (OfOutsider(i) in c.durable <==> Survives(c, i))
    decreases |steps|
  {
    if steps != [] {
      OutsiderDurableExactly(steps[..|steps| - 1]);
      TransactionsAreSerial(steps[..|steps| - 1]);
      var before, step := RunConnection(Fresh(), steps[..|steps| - 1]), steps[|steps| - 1];
      match step
      case Enqueue => EntryIsAccounted(before, step);
      case Begin(_, _) => EntryIsAccounted(before, step);
      case Execute(_, _) => ExecutionIsAccounted(before, step);
      case Direct(_) => ExecutionIsAccounted(before, step);
      case Commit(_, _, _) => ExitIsAccounted(before, step);
      case Throw(_, _) => ExitIsAccounted(before, step);
    }
  }

  /** The queue never stalls: as long as some call has not left, either one is inside or the first
      waiting one may enter. */
  lemma SomeoneCanMove<S>(steps: seq<ConnectionStep<S>>, t: nat)
    requires var c := RunConnection(Fresh(), steps); t < |c.tickets| && c.tickets[t].turn != Left
    ensures var c := RunConnection(Fresh(), steps); exists e: nat :: e <= t && (IsInside(c, e) || MayEnter(c, e))
  {
    TransactionsAreSerial(steps);
    FirstNotLeft(RunConnection(Fresh(), steps), t);
  }

  lemma {:induction false} FirstNotLeft<S>(c: Connection<S>, t: nat)
    requires t < |c.tickets| && c.tickets[t].turn != Left
    ensures exists e: nat :: e <= t && (IsInside(c, e) || MayEnter(c, e))
    decreases t
  {
    if e :| 0 <= e < t && c.tickets[e].turn != Left {
      FirstNotLeft(c, e);
    } else {
      assert IsInside(c, t) || MayEnter(c, t);
    }
  }

  // ----- a rollback that fails -----

  /** A transaction is open on the connection, and nobody is inside it. */
  ghost predicate LeftOpen<S>(c: Connection<S>) {
    c.owner.Some? && forall t: nat :: !IsInside(c, t)
  }

  /** A call leaves with an error and its ROLLBACK fails. */
  predicate RollbackFails<S>(c: Connection<S>, step: ConnectionStep<S>) {
    || (step.Throw? && IsInside(c, step.ticket) && !step.rolledBack)
    || (step.Commit? && IsInside(c, step.ticket) && !step.ok && !step.rolledBack)
  }

  lemma LeftOpenByEntry<S>(c: Connection<S>, step: ConnectionStep<S>)
    requires Queued(c) && (step.Enqueue? || step.Begin?)
    ensures LeftOpen(NextConnection(c, step)) <==> LeftOpen(c)
  {
    var next := NextConnection(c, step);
    assert forall t: nat :: IsInside(c, t) ==> IsInside(next, t);
    if step.Begin? && next.owner != c.owner {
      assert IsInside(next, step.ticket);
    } else {
      assert forall t: nat :: IsInside(next, t) ==> IsInside(c, t);
    }
  }

  lemma LeftOpenByExit<S>(c: Connection<S>, step: ConnectionStep<S>)
    requires Queued(c) && !step.Enqueue? && !step.Begin?
    ensures LeftOpen(NextConnection(c, step)) <==> LeftOpen(c) || RollbackFails(c, step)
  {
    var next := NextConnection(c, step);
    if (step.Commit? || step.Throw?) && IsInside(c, step.ticket) {
      forall t: nat ensures !IsInside(next, t) { assert IsInside(c, t) ==> t == step.ticket; }
    } else {
      assert forall t: nat :: IsInside(next, t) <==> IsInside(c, t);
    }
  }

  /** In every reachable connection: a transaction is left open after a step exactly if one was left
      open before, or the step is a failed ROLLBACK. So it is never closed again. */
  lemma LeftOpenExactly<S>(steps: seq<ConnectionStep<S>>, step: ConnectionStep<S>)
    ensures var c := RunConnection(Fresh(), steps);
      LeftOpen(NextConnection(c, step)) <==> LeftOpen(c) || RollbackFails(c, step)
  {
    TransactionsAreSerial(steps);
    var c := RunConnection(Fresh(), steps);
    if step.Enqueue? || step.Begin? { LeftOpenByEntry(c, step); } else { LeftOpenByExit(c, step); }
  }

  /** A call whose turn has come gets its transaction exactly if none is left open. */
  lemma EntersUnlessLeftOpen<S>(steps: seq<ConnectionStep<S>>, t: nat)
    requires MayEnter(RunConnection(Fresh(), steps), t)
    ensures var c := RunConnection(Fresh(), steps);
      IsInside(NextConnection(c, Begin(t, true)), t) <==> !LeftOpen(c)
  {
    TransactionsAreSerial(steps);
    var c := RunConnection(Fresh(), steps);
    forall e: nat ensures !IsInside(c, e) { assert e < |c.tickets| && e > t ==> c.tickets[e].turn == Waiting; }
  }

  /** Once a transaction was left open nothing becomes durable any more, whoever runs it, although
      the queue keeps moving. */
  lemma {:induction false} LeftOpenStaysOpen<S>(c: Connection<S>, steps: seq<ConnectionStep<S>>)
    requires LeftOpen(c)
    ensures LeftOpen(RunConnection(c, steps)) && RunConnection(c, steps).durable == c.durable
    decreases |steps|
  {
    if steps != [] {
      var before := RunConnection(c, steps[..|steps| - 1]);
      LeftOpenStaysOpen(c, steps[..|steps| - 1]);
      var next := NextConnection(before, steps[|steps| - 1]);
      forall t: nat ensures !IsInside(next, t) {
        assert !IsInside(before, t);
      }
    }
  }

  // ----- it happens -----

  lemma RunNext<S>(c: Connection<S>, steps: seq<ConnectionStep<S>>, step: ConnectionStep<S>)
    ensures RunConnection(c, steps + [step]) == NextConnection(RunConnection(c, steps), step)
  {
    assert (steps + [step])[..|steps|] == steps;
  }

  /** The first call is inside its transaction, with one outsider's statement in it. */
  lemma OneJoined<S>(statement: S)
    ensures var c := RunConnection(Fresh(), [Enqueue, Begin(0, true), Direct(statement)]);
      IsInside(c, 0) && |c.tickets| == 1 && c.outsiders == [Outsider(statement, Some(0))] && c.durable == []
        && c.owner == Some(0)
  {
    var first: seq<ConnectionStep<S>> := [Enqueue];
    var second: seq<ConnectionStep<S>> := [Enqueue, Begin(0, true)];
    RunNext<S>(Fresh(), [], Enqueue);
    RunNext(Fresh(), first, Begin(0, true));
    RunNext(Fresh(), second, Direct(statement));
    assert [] + first == first && first + [Begin(0, true)] == second;
    assert second + [Direct(statement)] == [Enqueue, Begin(0, true), Direct(statement)];
  }

  /** A statement outside the queue is lost with the work it joined, and a failed ROLLBACK leaves the
      transaction open. */
  lemma OutsiderLost<S>(statement: S, rolledBack: bool)
    ensures var c := RunConnection(Fresh(), [Enqueue, Begin(0, true), Direct(statement)] + [Throw(0, rolledBack)]);
      c.outsiders == [Outsider(statement, Some(0))] && c.durable == [] && (LeftOpen(c) <==> !rolledBack)
  {
    OneJoined(statement);
    RunNext(Fresh<S>(), [Enqueue, Begin(0, true), Direct(statement)], Throw(0, rolledBack));
    LeftOpenExactly([Enqueue, Begin(0, true), Direct(statement)], Throw(0, rolledBack));
    assert IsInside(RunConnection(Fresh<S>(), [Enqueue, Begin(0, true), Direct(statement)]), 0);
  }
}
