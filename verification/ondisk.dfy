/** On a disk that works, what a session goes through is on the disk: no record of a history is refused. */
module OnDisk {
  import opened Outcomes
  import opened Text
  import opened Host
  import opened Journal
  import opened Durable
  import opened Crashes
  import opened Progress
  import Turns
  import M = Machines
  import P = Provider
  import R = Restoring
  import F = Refines
  import H = Hosts
  import L = RecordLaws
  import S = Stored

  /** A record as the runtime drafts it for a session. */
  predicate DraftOf(r: Record, session: string) {
    && r.schema == "" && r.schemaVersion == 0 && TrimSpace(r.sessionID) == session && r.event != Extension("")
    && r.data.Fields?
  }

  predicate DraftsOf(records: seq<Record>, session: string) {
    forall i :: 0 <= i < |records| ==> DraftOf(records[i], session)
  }

  /** The session, and all that is in its journal, go by one ID. */
  predicate Filed(w: P.World, session: string) {
    TrimSpace(w.m.s.id) == session && DraftsOf(w.journal, session)
  }

  /** Events that name a session name this one. */
  predicate Signed(move: P.Move, session: string) {
    F.EventMove(move) ==> move.event.sessionID == "" || TrimSpace(move.event.sessionID) == session
  }

  predicate AllSigned(moves: seq<P.Move>, session: string) {
    forall i :: 0 <= i < |moves| ==> Signed(moves[i], session)
  }

  lemma DeliveryKeepsTheID(s: Turns.State, e: Event)
    ensures Turns.Deliver(s, e).0.id == s.id
  {
  }

  lemma StepsKeepTheID(m: M.Machine, step: M.Step)
    ensures M.Apply(m, step).s.id == m.s.id
  {
    if step.Deliver? {
      DeliveryKeepsTheID(m.s, step.event);
    } else if step.SubmitFails? {
      DeliveryKeepsTheID(Turns.SubmissionCleared(m.s), Turns.SUBMISSION_FAILURE);
    } else if step.InterruptReturns? {
      DeliveryKeepsTheID(m.s, Bare(TurnFailed, step.turnID));
    }
  }

  lemma JournaledIsDraft(s: Turns.State, e: Event, session: string)
    requires TrimSpace(s.id) == session && !e.typ.Dotted?
    requires e.sessionID == "" || TrimSpace(e.sessionID) == session
    ensures DraftsOf(P.Journaled(s, e), session)
  {
  }

  lemma MoveRecordsAreDrafts(w: P.World, move: P.Move, session: string)
    requires TrimSpace(w.m.s.id) == session && F.Ordinary(w, move) && Signed(move, session)
    ensures DraftsOf(F.MoveRecords(w, move), session)
  {
    if F.EventMove(move) {
      F.EventMoveDelivers(w, move);
      JournaledIsDraft(w.m.s, move.event, session);
    } else if move.SubmissionFails? {
      JournaledIsDraft(Turns.SubmissionCleared(w.m.s), Turns.SUBMISSION_FAILURE, session);
    } else if move.InterruptDone? {
      JournaledIsDraft(w.m.s, Bare(TurnFailed, move.turnID), session);
    }
  }

  lemma MoveFiles(w: P.World, move: P.Move, session: string)
    requires Filed(w, session) && F.Ordinary(w, move) && Signed(move, session)
    ensures Filed(P.Moved(w, move), session)
  {
    F.MoveSteps(w, move);
    F.MoveAppends(w, move);
    MoveRecordsAreDrafts(w, move, session);
    if F.StepOf(move).Some? {
      StepsKeepTheID(w.m, F.StepOf(move).value);
    }
  }

  lemma {:induction false} PlayFiles(w: P.World, moves: seq<P.Move>, session: string)
    requires Filed(w, session) && F.AllOrdinary(w, moves) && AllSigned(moves, session)
    ensures Filed(P.Play(w, moves), session)
    decreases |moves|
  {
    if moves != [] {
      assert Signed(moves[0], session);
      assert forall i :: 0 <= i < |moves[1..]| ==> moves[1..][i] == moves[i + 1];
      MoveFiles(w, moves[0], session);
      PlayFiles(P.Moved(w, moves[0]), moves[1..], session);
    }
  }

  lemma StampedIsDraft(s: Turns.State, e: Event, session: string)
    requires TrimSpace(s.id) == session && !e.typ.Dotted? && e.sessionID == ""
    ensures Translate(Turns.Stamped(s, e)).Some? ==> DraftOf(Translate(Turns.Stamped(s, e)).value, session)
  {
    JournaledIsDraft(s, e, session);
    if Translate(Turns.Stamped(s, e)).Some? {
      assert P.Journaled(s, e)[0] == Translate(Turns.Stamped(s, e)).value;
    }
  }

  lemma RecoveryIsFiled(s: Turns.State, session: string)
    requires TrimSpace(s.id) == session
    ensures DraftsOf(TranslateAll(R.Reconciled(s).1), session) && R.Reconciled(s).0.id == s.id
  {
    if s.active {
      var s1 := if s.pending == None then s else Turns.Deliver(s, R.Cancelled(s)).0;
      if s.pending.Some? {
        StampedIsDraft(s, R.Cancelled(s), session);
        DeliveryKeepsTheID(s, R.Cancelled(s));
      }
      StampedIsDraft(s1, R.Orphaned(s), session);
      DeliveryKeepsTheID(s1, R.Orphaned(s));
    }
    TranslationsAreDrafts(R.Reconciled(s).1, session);
  }

  lemma {:induction false} TranslationsAreDrafts(events: seq<Event>, session: string)
    requires forall i :: 0 <= i < |events| && Translate(events[i]).Some? ==> DraftOf(Translate(events[i]).value, session)
    ensures DraftsOf(TranslateAll(events), session)
  {
    if events != [] {
      TranslationsAreDrafts(events[1..], session);
    }
  }

  lemma HostFiles(request: R.RestoreRequest, w: P.World, session: string)
    requires Filed(w, session) && TrimSpace(request.id) == session
    ensures Filed(H.Hosted(request, w), session)
  {
    var rebuilt := R.Rebuilt(request, w.journal);
    if rebuilt.Some? {
      L.RestoredIdentity(request, w.journal);
      TrimIsIdempotent(request.id);
      RecoveryIsFiled(rebuilt.value, session);
    }
  }

  predicate LivesSigned(lives: seq<seq<P.Move>>, session: string) {
    forall i :: 0 <= i < |lives| ==> AllSigned(lives[i], session)
  }

  lemma {:induction false} LivesFile(request: R.RestoreRequest, w: P.World, lives: seq<seq<P.Move>>, session: string)
    requires Filed(w, session) && TrimSpace(request.id) == session
    requires H.LivesTraced(request, w, lives) && LivesSigned(lives, session)
    ensures Filed(H.Lived(request, w, lives), session)
    decreases |lives|
  {
    if lives != [] {
      var w1 := H.Hosted(request, w);
      HostFiles(request, w, session);
      assert AllSigned(lives[0], session);
      assert forall i :: 0 <= i < |lives[1..]| ==> lives[1..][i] == lives[i + 1];
      PlayFiles(w1, lives[0], session);
      LivesFile(request, P.Play(w1, lives[0]), lives[1..], session);
    }
  }

  /** Every record that was asked for is that of an append, and the other way round. */
  lemma {:induction false} AppendsAreAsked(ops: seq<Op>)
    ensures forall i :: 0 <= i < |ops| && ops[i].Append? ==> ops[i].attempt.record in S.Asked(ops)
  {
    if ops != [] {
      AppendsAreAsked(ops[1..]);
      assert forall i :: 0 < i < |ops| ==> ops[i] == ops[1..][i - 1];
    }
  }

  predicate DisksWork(ops: seq<Op>) {
    forall i :: 0 <= i < |ops| && ops[i].Append? ==> ops[i].attempt.disk == Works
  }

  lemma DraftsAreServiceable(cfg: Settings, ops: seq<Op>)
    requires cfg.session != "" && DraftsOf(S.Asked(ops), cfg.session) && DisksWork(ops)
    ensures AllAddressed(cfg, ops) && Serviceable(cfg, ops)
  {
    AppendsAreAsked(ops);
    forall i | 0 <= i < |ops| && ops[i].Append?
      ensures Addressed(cfg, ops[i].attempt) && Addressable(cfg, ops[i].attempt.record)
    {
      var r := ops[i].attempt.record;
      var k :| 0 <= k < |S.Asked(ops)| && S.Asked(ops)[k] == r;
      assert DraftOf(r, cfg.session);
    }
  }

  /**
   From live state to disk and back, with nothing taken for granted about the store's answers: on a disk that
   works and with a codec that encodes every record, each record of a history is acknowledged, over any
   restarts of store and host, and what is restored from the file agrees with the live session.
   */
  lemma HistoriesSurviveOnDisk(cfg: Settings, ops: seq<Op>, request: R.RestoreRequest, id: string, backend: string,
                               limit: nat, worktree: string, moves: seq<P.Move>, lives: seq<seq<P.Move>>)
    requires Sound(cfg) && cfg.reducer == None && EncodesAll(cfg) && DisksWork(ops)
    requires backend != "" && worktree != "" && TrimSpace(id) == TrimSpace(request.id) == cfg.session != ""
    requires H.HistoryTraced(request, id, backend, limit, worktree, moves, lives)
    requires AllSigned(moves, cfg.session) && LivesSigned(lives, cfg.session)
    requires S.Asked(ops) == H.History(request, id, backend, limit, worktree, moves, lives).journal
    ensures AllAcknowledged(ops, Run(cfg, EMPTY, ops).1)
    ensures var read := ReadFrom(cfg, Run(cfg, EMPTY, ops).0, 0, 0, 0);
            read.Ok? && F.Agrees(R.Rebuilt(request, read.value),
                                 H.History(request, id, backend, limit, worktree, moves, lives).m.s)
  {
    var start := P.Start(id, backend, limit, worktree);
    assert Filed(start, cfg.session);
    PlayFiles(start, moves, cfg.session);
    LivesFile(request, P.Play(start, moves), lives, cfg.session);
    DraftsAreServiceable(cfg, ops);
    EmptyHolds(cfg);
    WorkingStoresAcknowledge(cfg, EMPTY, [], ops);
    S.RunSurvivesOnDisk(cfg, ops, request, id, backend, limit, worktree, moves, lives);
  }
}
