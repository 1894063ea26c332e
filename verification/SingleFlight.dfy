/** The single flight of runSync: callers of one session share a sync, callers of another wait for
    it and then try again. */
module SingleFlight {
  import opened LocalTables

  type SessionId = string

  /** One runSyncInternal and the callers it serves; one caller's request for a session. */
  datatype Flight = Flight(session: SessionId, running: bool)
  datatype Caller = Served(session: SessionId, flight: nat) | Chained(session: SessionId, behind: nat)

  datatype Syncs = Syncs(active: Option<nat>, flights: seq<Flight>, callers: seq<Caller>)

  datatype SyncStep = Request(session: SessionId) | Land(flight: nat) | Wake(caller: nat)

  /** runSync from its first line: what the caller gets, and perhaps a new flight. */
  function Admit(s: Syncs, session: SessionId): (Syncs, Caller) {
    if s.active.Some? && s.active.value < |s.flights| then
      (if s.flights[s.active.value].session == session then (s, Served(session, s.active.value))
        else (s, Chained(session, s.active.value)))
    else (s.(active := Some(|s.flights|), flights := s.flights + [Flight(session, true)]), Served(session, |s.flights|))
  }

  function NextSyncs(s: Syncs, step: SyncStep): Syncs {
    match step
    case Request(session) => var (next, caller) := Admit(s, session); next.(callers := next.callers + [caller])
    case Land(f) =>
      if f >= |s.flights| || !s.flights[f].running then s
      else s.(active := if s.active == Some(f) then None
        else s.active, flights := s.flights[f := s.flights[f].(running := false)])
    case Wake(c) =>
      if c >= |s.callers| || s.callers[c].Served? || s.callers[c].behind >= |s.flights|
        || s.flights[s.callers[c].behind].running then s
      else var (next, caller) := Admit(s, s.callers[c].session); next.(callers := next.callers[c := caller])
  }

  function RunSyncs(s: Syncs, steps: seq<SyncStep>): Syncs
    decreases |steps|
  {
    if steps == [] then s else NextSyncs(RunSyncs(s, steps[..|steps| - 1]), steps[|steps| - 1])
  }

  /** At most one sync runs, the active one; every caller is served by a flight of its own session
      or waits behind a flight of another. */
  ghost predicate OneFlight(s: Syncs) {
    && (forall f :: 0 <= f < |s.flights| ==> (s.flights[f].running <==> s.active == Some(f)))
    && (s.active.Some? ==> s.active.value < |s.flights|)
    && (forall c :: 0 <= c < |s.callers| ==>
          match s.callers[c]
          case Served(session, f) => f < |s.flights| && s.flights[f].session == session
          case Chained(session, f) => f < |s.flights| && s.flights[f].session != session)
  }

  /** In every interleaving two syncs never overlap, and no caller gets another session's result. */
  lemma {:induction false} SyncsNeverOverlap(steps: seq<SyncStep>)
    ensures OneFlight(RunSyncs(Syncs(None, [], []), steps))
    decreases |steps|
  {
    if steps != [] { SyncsNeverOverlap(steps[..|steps| - 1]); }
  }

  /** A landed flight strands nobody: each caller chained behind it is served or chained behind the
      flight that is active when it wakes. */
  lemma WakeMovesOn(steps: seq<SyncStep>, c: nat)
    requires var s := RunSyncs(Syncs(None, [], []), steps);
      c < |s.callers| && s.callers[c].Chained? && s.callers[c].behind < |s.flights|
      && !s.flights[s.callers[c].behind].running
    ensures var next := NextSyncs(RunSyncs(Syncs(None, [], []), steps), Wake(c));
      && c < |next.callers| && next.active.Some? && next.active.value < |next.flights|
         && next.flights[next.active.value].running
      && next.callers[c] == (if next.flights[next.active.value].session == next.callers[c].session
                             then Served(next.callers[c].session, next.active.value)
                             else Chained(next.callers[c].session, next.active.value))
  {
    SyncsNeverOverlap(steps);
  }

  /** A chained caller goes on waiting as long as the flight it waits for is running. */
  lemma WaitsForLanding(s: Syncs, c: nat)
    requires c < |s.callers| && s.callers[c].Chained?
    requires s.callers[c].behind < |s.flights| && s.flights[s.callers[c].behind].running
    ensures NextSyncs(s, Wake(c)) == s
  {
  }
}
