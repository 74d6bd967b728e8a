/** A closed session stays closed over restarts of the host. */
module Closing {
  import opened Outcomes
  import opened Text
  import opened Host
  import opened Journal
  import opened Sessions
  import opened Turns
  import opened Machines
  import opened Provider
  import opened Restoring
  import opened RecordLaws
  import opened Refines
  import opened Hosts

  /** The journal says closed exactly when the session is. */
  predicate ClosedAlike(f: Option<State>, s: State) {
    f.Some? && (f.value.status == Closed <==> s.status == Closed)
  }

  lemma RecordsCloseAlike(request: RestoreRequest, f: Option<State>, records: seq<Record>)
    requires f.Some? && |records| <= 1
    requires records != [] ==> records[0].event != SessionCreated
    ensures After(request, f, records).Some?
    ensures After(request, f, records).value.status == Closed
            <==> f.value.status == Closed || (records != [] && records[0].event == SessionClosed)
  {
    if records != [] {
      AppliedStatus(f.value, records[0]);
    }
  }

  lemma JournaledNames(s: State, e: Event)
    requires !e.typ.Dotted?
    ensures |Journaled(s, e)| <= 1
    ensures Journaled(s, e) != [] ==> Journaled(s, e)[0].event !in {SessionCreated, SessionClosed}
  {
    if Translate(Stamped(s, e)).Some? {
      TranslatedFields(Stamped(s, e));
    }
  }

  /** Only a Close of an open session journals a close, and nothing else in a run journals a creation. */
  lemma MoveRecordNames(w: World, move: Move)
    requires Ordinary(w, move)
    ensures var records := MoveRecords(w, move);
            && |records| <= 1
            && (records != [] ==> records[0].event != SessionCreated)
            && (records != [] && records[0].event == SessionClosed <==> move == Calls(Close) && Open(w.m.s))
  {
    if EventMove(move) {
      EventMoveDelivers(w, move);
      JournaledNames(w.m.s, move.event);
    } else if move.SubmissionFails? {
      JournaledNames(SubmissionCleared(w.m.s), SUBMISSION_FAILURE);
    } else if move.InterruptDone? {
      JournaledNames(w.m.s, Bare(TurnFailed, move.turnID));
    }
  }

  lemma MoveCloses(w: World, move: Move)
    requires Ordinary(w, move)
    ensures !Open(Provider.Moved(w, move).m.s) <==> !Open(w.m.s) || move == Calls(Close)
  {
    MoveSteps(w, move);
    if StepOf(move).Some? {
      StepCloses(w.m, StepOf(move).value);
    }
  }

  /** Close is the only step that closes a session. */
  lemma StepCloses(m: Machine, step: Step)
    ensures !Open(Apply(m, step).s) <==> !Open(m.s) || step == Step.Close
  {
    if !Open(m.s) {
      StepStaysClosed(m, step);
    }
  }

  lemma MoveClosesAlike(request: RestoreRequest, w: World, move: Move)
    requires ClosedAlike(Rebuilt(request, w.journal), w.m.s) && Ordinary(w, move)
    ensures ClosedAlike(Rebuilt(request, Provider.Moved(w, move).journal), Provider.Moved(w, move).m.s)
  {
    MoveAppends(w, move);
    MoveRecordNames(w, move);
    MoveCloses(w, move);
    RebuiltAfter(request, w.journal, MoveRecords(w, move));
    RecordsCloseAlike(request, Rebuilt(request, w.journal), MoveRecords(w, move));
  }

  lemma {:induction false} PlayClosesAlike(request: RestoreRequest, w: World, moves: seq<Move>)
    requires ClosedAlike(Rebuilt(request, w.journal), w.m.s) && AllOrdinary(w, moves)
    ensures ClosedAlike(Rebuilt(request, Play(w, moves).journal), Play(w, moves).m.s)
    decreases |moves|
  {
    if moves != [] {
      MoveClosesAlike(request, w, moves[0]);
      PlayClosesAlike(request, Provider.Moved(w, moves[0]), moves[1..]);
    }
  }

  lemma HostedClosesAlike(request: RestoreRequest, w: World)
    requires ClosedAlike(Rebuilt(request, w.journal), w.m.s)
    ensures var w1 := Hosted(request, w);
            ClosedAlike(Rebuilt(request, w1.journal), w1.m.s) && (Open(w1.m.s) <==> Open(w.m.s))
  {
    RecoveryIsTotal(request, w.journal);
    RecoveryIsIdempotent(request, w.journal);
  }

  predicate LivesOrdinary(request: RestoreRequest, w: World, lives: seq<seq<Move>>)
    decreases |lives|
  {
    lives == [] ||
    var w1 := Hosted(request, w);
    AllOrdinary(w1, lives[0]) && LivesOrdinary(request, Play(w1, lives[0]), lives[1..])
  }

  lemma {:induction false} LivesCloseAlike(request: RestoreRequest, w: World, lives: seq<seq<Move>>)
    requires ClosedAlike(Rebuilt(request, w.journal), w.m.s) && LivesOrdinary(request, w, lives)
    ensures ClosedAlike(Rebuilt(request, Lived(request, w, lives).journal), Lived(request, w, lives).m.s)
    decreases |lives|
  {
    if lives != [] {
      HostedClosesAlike(request, w);
      PlayClosesAlike(request, Hosted(request, w), lives[0]);
      LivesCloseAlike(request, Play(Hosted(request, w), lives[0]), lives[1..]);
    }
  }

  /**
   Closing is remembered: after any run with any adapter, over any number of hosts, a host that restores
   finds the session closed if and only if it had been closed.
   */
  lemma ClosingIsRemembered(request: RestoreRequest, id: string, backend: string, limit: nat, worktree: string,
                            moves: seq<Move>, lives: seq<seq<Move>>)
    requires backend != "" && worktree != ""
    requires AllOrdinary(Start(id, backend, limit, worktree), moves)
    requires LivesOrdinary(request, Play(Start(id, backend, limit, worktree), moves), lives)
    ensures var w := History(request, id, backend, limit, worktree, moves, lives);
            && Restoring.Recovered(request, w.journal).Some?
            && (Restoring.Recovered(request, w.journal).value.status == Closed <==> w.m.s.status == Closed)
  {
    var w := Start(id, backend, limit, worktree);
    StartAgreesWithItsJournal(request, id, backend, limit, worktree);
    PlayClosesAlike(request, w, moves);
    LivesCloseAlike(request, Play(w, moves), lives);
    RecoveryIsTotal(request, History(request, id, backend, limit, worktree, moves, lives).journal);
  }
}
