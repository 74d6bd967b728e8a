/** Histories: hosts that stop anywhere in a run, restore, and go on with the same journal. */
module Hosts {
  import opened Outcomes
  import opened Host
  import opened Journal
  import opened Sessions
  import opened Turns
  import opened Machines
  import opened Provider
  import opened Restoring
  import opened Refines

  /** A new host over the journal of w: the restored session, with its recovery journaled. */
  function Hosted(request: RestoreRequest, w: World): World {
    match Rebuilt(request, w.journal)
    case None => w
    case Some(s) =>
      World(Machine(Reconciled(s).0, 0, NO_ENTRIES), multiset{}, {}, multiset{},
            w.journal + RecoveryRecords(request, w.journal))
  }

  /** Runs on one journal, each in a new host that restored what the one before it had left. */
  function Lived(request: RestoreRequest, w: World, lives: seq<seq<Move>>): World
    decreases |lives|
  {
    if lives == [] then w else Lived(request, Play(Hosted(request, w), lives[0]), lives[1..])
  }

  /** In every life the session is left open, and its moves are ordinary and traced. */
  predicate LivesTraced(request: RestoreRequest, w: World, lives: seq<seq<Move>>)
    decreases |lives|
  {
    lives == [] ||
    var w1 := Hosted(request, w);
    && AllOrdinary(w1, lives[0]) && AllTraced(w1, lives[0]) && Open(Play(w1, lives[0]).m.s)
    && LivesTraced(request, Play(w1, lives[0]), lives[1..])
  }

  /** A restored session agrees with the journal that its recovery extended. */
  lemma HostedAgrees(request: RestoreRequest, w: World)
    requires Agrees(Rebuilt(request, w.journal), w.m.s)
    ensures var w1 := Hosted(request, w);
            Agrees(Rebuilt(request, w1.journal), w1.m.s) && Coupled(w1.m.s) && Open(w1.m.s)
  {
    RecoveryIsTotal(request, w.journal);
    RecoveryIsIdempotent(request, w.journal);
  }

  lemma {:induction false} LivesAgree(request: RestoreRequest, w: World, lives: seq<seq<Move>>)
    requires Agrees(Rebuilt(request, w.journal), w.m.s) && LivesTraced(request, w, lives)
    ensures Agrees(Rebuilt(request, Lived(request, w, lives).journal), Lived(request, w, lives).m.s)
    decreases |lives|
  {
    if lives != [] {
      var w1 := Hosted(request, w);
      HostedAgrees(request, w);
      PlayAgrees(request, w1, lives[0]);
      AgreesAtTheEnd(request, w1, lives[0]);
      LivesAgree(request, Play(w1, lives[0]), lives[1..]);
    }
  }

  /** A run from the creation of a session, with any number of hosts behind it on the same journal. */
  function History(request: RestoreRequest, id: string, backend: string, limit: nat, worktree: string,
                   moves: seq<Move>, lives: seq<seq<Move>>): World
  {
    Lived(request, Play(Start(id, backend, limit, worktree), moves), lives)
  }

  predicate HistoryTraced(request: RestoreRequest, id: string, backend: string, limit: nat, worktree: string,
                          moves: seq<Move>, lives: seq<seq<Move>>)
  {
    var w := Start(id, backend, limit, worktree);
    && AllOrdinary(w, moves) && AllTraced(w, moves) && Open(Play(w, moves).m.s)
    && LivesTraced(request, Play(w, moves), lives)
  }

  /**
   Restore refines the live session over any number of hosts: folding the journal gives the live turn, its
   ID and the pending interaction, and a status that is in a turn exactly when the live one is.
   */
  lemma RestoreRefinesLive(request: RestoreRequest, id: string, backend: string, limit: nat, worktree: string,
                           moves: seq<Move>, lives: seq<seq<Move>>)
    requires backend != "" && worktree != ""
    requires HistoryTraced(request, id, backend, limit, worktree, moves, lives)
    ensures var w := History(request, id, backend, limit, worktree, moves, lives);
            Agrees(Rebuilt(request, w.journal), w.m.s)
  {
    var w := Start(id, backend, limit, worktree);
    RestoreRefinesExactly(request, id, backend, limit, worktree, moves);
    AgreesAtTheEnd(request, w, moves);
    LivesAgree(request, Play(w, moves), lives);
  }

  /** A cancellation for the pending answer, then the failure of the turn, both under its ID. */
  predicate Reports(s: State, events: seq<Event>) {
    && |events| == (if s.pending.Some? then 2 else 1)
    && events[|events| - 1].typ == TurnFailed && events[|events| - 1].turnID == s.activeTurnID
    && (s.pending.Some? ==>
          && events[0].typ == InteractionResolved && events[0].turnID == s.activeTurnID && events[0].response.Some?
          && events[0].response.value.requestID == s.pending.value.id
          && events[0].response.value.action == "cancel")
  }

  lemma RecoveryReports(s: State)
    requires s.active && s.activeTurnID != ""
    ensures Reports(s, Reconciled(s).1)
  {
  }

  /**
   A host that stops at any point of such a history and restores finds an idle session again, and closes
   exactly the turn that was orphaned: it reports a failure under the live turn's ID, and a
   cancellation if an answer was pending, if and only if a turn was active.
   */
  lemma RestartClosesTheOrphanedTurn(request: RestoreRequest, id: string, backend: string, limit: nat,
                                     worktree: string, moves: seq<Move>, lives: seq<seq<Move>>)
    requires backend != "" && worktree != ""
    requires HistoryTraced(request, id, backend, limit, worktree, moves, lives)
    ensures var w := History(request, id, backend, limit, worktree, moves, lives);
            var restored := Rebuilt(request, w.journal);
            restored.Some? && ClosesTheTurnOf(w.m.s, Reconciled(restored.value))
  {
    RestoreRefinesLive(request, id, backend, limit, worktree, moves, lives);
    var w := History(request, id, backend, limit, worktree, moves, lives);
    AgreementRecovers(request, w.journal, w.m.s);
  }

  /** A recovery that leaves the session idle and reports the turn and the question that s had open. */
  predicate ClosesTheTurnOf(s: State, recovery: (State, seq<Event>)) {
    var (recovered, events) := recovery;
    && recovered.status == Active && !recovered.active && recovered.activeTurnID == ""
    && (if s.active then Reports(s, events) else events == [])
  }

  lemma AgreementRecovers(request: RestoreRequest, journal: seq<Record>, s: State)
    requires Agrees(Rebuilt(request, journal), s)
    ensures ClosesTheTurnOf(s, Reconciled(Rebuilt(request, journal).value))
  {
    RecoveryIsTotal(request, journal);
    RebuiltIsPlausible(request, journal);
    if Rebuilt(request, journal).value.active {
      RecoveryReports(Rebuilt(request, journal).value);
    }
  }
}
