/** Restore refines the live session: the journal of a run describes the turn the session is in. */
module Refines {
  import opened Outcomes
  import opened Text
  import opened Host
  import opened Journal
  import opened Sessions
  import opened Turns
  import opened Machines
  import opened Provider
  import opened Restoring

  /** The rebuilt session and the live one are in the same turn, waiting for the same answer. */
  predicate Agrees(f: Option<State>, s: State) {
    && f.Some? && Open(f.value)
    && f.value.active == s.active
    && f.value.activeTurnID == s.activeTurnID
    && f.value.pending == s.pending
    && (InTurn(f.value.status) <==> InTurn(s.status))
    && (f.value.status == Active || InTurn(f.value.status))
    && TrimSpace(s.activeTurnID) == s.activeTurnID
  }

  function After(request: RestoreRequest, f: Option<State>, records: seq<Record>): Option<State>
    requires |records| <= 1
  {
    if records == [] then f else Noted(request, f, records[0])
  }

  lemma RebuiltAfter(request: RestoreRequest, journal: seq<Record>, records: seq<Record>)
    requires |records| <= 1
    ensures Rebuilt(request, journal + records) == After(request, Rebuilt(request, journal), records)
  {
    RebuiltConcat(request, journal, records);
  }

  // ---- One delivered event ----

  /** Fields of a record that the fold reads, for a translated event. */
  lemma TranslatedFields(e: Event)
    requires Translate(e).Some? && !e.typ.Dotted?
    ensures var r := Translate(e).value;
            && r.turnID == e.turnID && r.data.Fields?
            && r.data.interaction == e.interaction && r.data.response == e.response
            && r.event != SessionCreated && r.event != SessionClosed
            && (r.event == AgentTurnStarted <==> e.typ == TurnStarted)
            && (r.event in {AgentInteraction, AgentPermission} <==> e.typ in {Permission, InteractionRequested})
            && (r.event == UserRequestResolved <==> e.typ == InteractionResolved)
            && (r.event in {AgentYielded, AgentInterrupted, AgentTurnFailed, AgentProcessExited} <==> IsTerminal(e.typ))
            && (r.event == AgentProcessExited <==> e.typ == ProcessExited)
  {
  }

  predicate Journals(t: EventType) {
    t == TurnStarted || t == InteractionRequested || t == InteractionResolved || IsTerminal(t)
  }

  lemma RelevantEventsAreJournaled(e: Event)
    requires Journals(e.typ)
    ensures Translate(e).Some?
  {
  }

  // The journal and the session part where an event is read differently by the two. `Traced` says for
  // each event exactly when they do not.

  /** The interaction that an event's record carries into a restored session. */
  predicate Identified(e: Event) {
    e.interaction.Some? && !Blank(e.interaction.value.id)
  }

  /** A live session and its journal read the event alike. */
  predicate EventTraced(s: State, e: Event) {
    match e.typ
    case TurnStarted => TrimSpace(e.turnID) == e.turnID
    case InteractionRequested => Identified(e) || s.pending == e.interaction
    case Permission => Identified(e) ==> s.pending == e.interaction
    case InteractionResolved =>
      s.pending == None || (e.response.Some? && (e.response.value.requestID != "" || s.pending.value.id == ""))
    case _ => true
  }

  /** What adapters are asked for: trimmed turn IDs, identified questions and answers. */
  predicate WellFormed(e: Event) {
    && TrimSpace(e.turnID) == e.turnID
    && (e.typ == InteractionRequested ==> Identified(e))
    && (e.typ == InteractionResolved ==> e.response.Some? && e.response.value.requestID != "")
    && (e.typ == Permission ==> e.interaction == None)
  }

  lemma WellFormedEventsAreTraced(s: State, e: Event)
    requires WellFormed(e)
    ensures EventTraced(s, e)
  {
  }

  lemma StartAgrees(request: RestoreRequest, f: Option<State>, s: State, e: Event)
    requires Agrees(f, s) && Open(s) && Coupled(s) && e.typ == TurnStarted
    ensures Agrees(After(request, f, Journaled(s, e)), Turns.Deliver(s, e).0) <==> EventTraced(s, e)
  {
    var e' := Stamped(s, e);
    RelevantEventsAreJournaled(e');
    TranslatedFields(e');
  }

  lemma RequestAgrees(request: RestoreRequest, f: Option<State>, s: State, e: Event)
    requires Agrees(f, s) && Open(s) && Coupled(s) && e.typ == InteractionRequested
    ensures Agrees(After(request, f, Journaled(s, e)), Turns.Deliver(s, e).0) <==> EventTraced(s, e)
  {
    var e' := Stamped(s, e);
    RelevantEventsAreJournaled(e');
    TranslatedFields(e');
  }

  /** A permission event's interaction is pending after a restore, and never in the live session. */
  lemma PermissionAgrees(request: RestoreRequest, f: Option<State>, s: State, e: Event)
    requires Agrees(f, s) && Open(s) && Coupled(s) && e.typ == Permission
    ensures Turns.Deliver(s, e).0 == s
    ensures Agrees(After(request, f, Journaled(s, e)), s) <==> EventTraced(s, e)
  {
    TranslatedFields(Stamped(s, e));
  }

  lemma ResolutionAgrees(request: RestoreRequest, f: Option<State>, s: State, e: Event)
    requires Agrees(f, s) && Open(s) && Coupled(s) && e.typ == InteractionResolved
    ensures Agrees(After(request, f, Journaled(s, e)), Turns.Deliver(s, e).0) <==> EventTraced(s, e)
  {
    var e' := Stamped(s, e);
    RelevantEventsAreJournaled(e');
    TranslatedFields(e');
  }

  lemma EndAgrees(request: RestoreRequest, f: Option<State>, s: State, e: Event)
    requires Agrees(f, s) && Open(s) && Coupled(s) && IsTerminal(e.typ)
    ensures Agrees(After(request, f, Journaled(s, e)), Turns.Deliver(s, e).0)
  {
    var e' := Stamped(s, e);
    RelevantEventsAreJournaled(e');
    TranslatedFields(e');
    assert Ends(f.value.activeTurnID, Translate(e').value) == TerminalMatches(s, e');
    EndRecordApplies(f.value, Translate(e').value);
  }

  lemma EndRecordApplies(f: State, r: Record)
    requires r.event in {AgentYielded, AgentInterrupted, AgentTurnFailed, AgentProcessExited}
    ensures Applied(f, r) ==
            if Ends(f.activeTurnID, r)
            then f.(active := false, activeTurnID := "", pending := None,
                    status := if InTurn(f.status) then Active else f.status)
            else f
  {
  }

  lemma OtherAgrees(request: RestoreRequest, f: Option<State>, s: State, e: Event)
    requires Agrees(f, s) && !e.typ.Dotted? && !Journals(e.typ) && e.typ != Permission
    ensures Agrees(After(request, f, Journaled(s, e)), Turns.Deliver(s, e).0)
  {
    var e' := Stamped(s, e);
    if Translate(e').Some? {
      TranslatedFields(e');
      OtherRecordsChangeNothing(f.value, Translate(e').value);
    }
  }

  lemma OtherRecordsChangeNothing(f: State, r: Record)
    requires r.event !in {AgentTurnStarted, UserRequestResolved, SessionClosed, SessionCreated}
    requires r.event !in {AgentYielded, AgentInterrupted, AgentTurnFailed, AgentProcessExited}
    requires r.event in {AgentInteraction, AgentPermission} ==> InteractionOf(r) == None
    ensures Applied(f, r) == f
  {
  }

  /** Delivering an event keeps journal and session in agreement if and only if they read it alike. */
  lemma DeliveryAgrees(request: RestoreRequest, f: Option<State>, s: State, e: Event)
    requires Agrees(f, s) && Open(s) && Coupled(s) && !e.typ.Dotted?
    ensures Agrees(After(request, f, Journaled(s, e)), Turns.Deliver(s, e).0) <==> EventTraced(s, e)
  {
    if e.typ == TurnStarted {
      StartAgrees(request, f, s, e);
    } else if e.typ == InteractionRequested {
      RequestAgrees(request, f, s, e);
    } else if e.typ == Permission {
      PermissionAgrees(request, f, s, e);
    } else if e.typ == InteractionResolved {
      ResolutionAgrees(request, f, s, e);
    } else if IsTerminal(e.typ) {
      EndAgrees(request, f, s, e);
    } else {
      OtherAgrees(request, f, s, e);
    }
  }

  // ---- A failed submission ----

  /**
   The failure is journaled under the provider's last turn ID. The journal takes it for the end of the turn
   it describes unless that turn is another one.
   */
  predicate FailureTraced(s: State) {
    !s.active || s.lastTurnID == "" || s.lastTurnID == s.activeTurnID
  }

  lemma FailureAgrees(request: RestoreRequest, f: Option<State>, s: State)
    requires Agrees(f, s) && Open(s) && Coupled(s)
    ensures Agrees(After(request, f, Journaled(SubmissionCleared(s), SUBMISSION_FAILURE)), FailSubmission(s).0)
            <==> FailureTraced(s)
  {
    var cleared := SubmissionCleared(s);
    FailureRecord(cleared);
    EndRecordApplies(f.value, Translate(Stamped(cleared, SUBMISSION_FAILURE)).value);
    FailureEnds(s);
  }

  lemma FailureRecord(cleared: State)
    requires !cleared.active && !cleared.dispatching && cleared.activeTurnID == ""
    ensures var r := Translate(Stamped(cleared, SUBMISSION_FAILURE));
            r.Some? && r.value.event == AgentTurnFailed && r.value.turnID == cleared.lastTurnID
  {
  }

  lemma FailureEnds(s: State)
    requires Coupled(s) && Open(s)
    ensures var s' := FailSubmission(s).0;
            !s'.active && s'.activeTurnID == "" && s'.pending == None && s'.status == Active
  {
  }

  // ---- One move ----

  /** A caller's step on a session that stays open changes neither its turn nor its interaction. */
  lemma CallKeepsTurn(m: Machine, step: Step)
    requires Coupled(m.s) && CallerStep(step) && StartsIdle(m, step) && Open(m.s) && Open(Apply(m, step).s)
    ensures var s' := Apply(m, step).s;
            s'.active == m.s.active && s'.activeTurnID == m.s.activeTurnID && s'.pending == m.s.pending
            && (InTurn(s'.status) <==> InTurn(m.s.status))
  {
    assert step != Close;
  }

  /** The records one move appends. */
  function MoveRecords(w: World, move: Move): seq<Record> {
    match move
    case Calls(step) => CallRecords(w.m.s, step)
    case TurnStarts(_, e) => Journaled(w.m.s, e)
    case TurnEnds(e) => Journaled(w.m.s, e)
    case ProcessExits(e) => Journaled(w.m.s, e)
    case OtherEvent(e) => Journaled(w.m.s, e)
    case SubmissionFails(_) => Journaled(SubmissionCleared(w.m.s), SUBMISSION_FAILURE)
    case InterruptDone(turnID) =>
      if w.m.s.active && w.m.s.activeTurnID == turnID then Journaled(w.m.s, Bare(TurnFailed, turnID)) else []
    case _ => []
  }

  lemma MoveAppends(w: World, move: Move)
    ensures Provider.Moved(w, move).journal == w.journal + MoveRecords(w, move)
    ensures |MoveRecords(w, move)| <= 1
  {
    if move.Calls? {
      CallAppends(w, move.step);
    } else if move.SubmissionFails? || move.InterruptDone? {
    } else if move.InterruptCalled? || move.EndsQuietly? {
      assert w.journal + [] == w.journal;
    }
  }

  lemma CallAppends(w: World, step: Step)
    ensures Provider.Moved(w, Calls(step)).journal == w.journal + CallRecords(w.m.s, step)
    ensures |CallRecords(w.m.s, step)| <= 1
  {
  }

  /** The step a move takes in the session's machine, if any. */
  function StepOf(move: Move): Option<Step> {
    match move
    case Calls(step) => Some(step)
    case TurnStarts(_, e) => Some(Deliver(e))
    case TurnEnds(e) => Some(Deliver(e))
    case ProcessExits(e) => Some(Deliver(e))
    case OtherEvent(e) => Some(Deliver(e))
    case SubmissionFails(queued) => Some(SubmitFails(queued))
    case InterruptDone(turnID) => Some(InterruptReturns(turnID))
    case _ => None
  }

  lemma MoveSteps(w: World, move: Move)
    ensures Provider.Moved(w, move).m == match StepOf(move) case Some(step) => Apply(w.m, step) case None => w.m
  {
  }

  predicate EventMove(move: Move) {
    move.TurnStarts? || move.TurnEnds? || move.ProcessExits? || move.OtherEvent?
  }

  lemma EventMoveDelivers(w: World, move: Move)
    requires EventMove(move)
    ensures MoveRecords(w, move) == Journaled(w.m.s, move.event) && StepOf(move) == Some(Deliver(move.event))
  {
  }

  /** A caller's steps, and events under undotted names; nothing is asked of the adapter. */
  predicate Ordinary(w: World, move: Move) {
    && (move.Calls? ==> CallerStep(move.step) && StartsIdle(w.m, move.step))
    && (EventMove(move) ==> !move.event.typ.Dotted?)
  }

  /** Session and journal read what happens in a move alike. */
  predicate Traced(w: World, move: Move) {
    && (EventMove(move) ==> EventTraced(w.m.s, move.event))
    && (move.SubmissionFails? ==> FailureTraced(w.m.s))
  }

  lemma CallAgrees(request: RestoreRequest, f: Option<State>, w: World, step: Step)
    requires Agrees(f, w.m.s) && Coupled(w.m.s) && Ordinary(w, Calls(step))
    requires Open(w.m.s) && Open(Apply(w.m, step).s)
    ensures |CallRecords(w.m.s, step)| <= 1
    ensures Agrees(After(request, f, CallRecords(w.m.s, step)), Apply(w.m, step).s)
  {
    var records := CallRecords(w.m.s, step);
    if records != [] {
      assert step != Close;
      OtherRecordsChangeNothing(f.value, records[0]);
    }
    CallKeepsTurn(w.m, step);
  }

  lemma InterruptAgrees(request: RestoreRequest, f: Option<State>, w: World, turnID: string)
    requires Agrees(f, w.m.s) && Coupled(w.m.s) && Open(w.m.s)
    ensures Agrees(After(request, f, MoveRecords(w, InterruptDone(turnID))), Apply(w.m, InterruptReturns(turnID)).s)
  {
    if w.m.s.active && w.m.s.activeTurnID == turnID {
      var fallback := Bare(TurnFailed, turnID);
      InterruptDelivers(w, turnID);
      EndAgrees(request, f, w.m.s, fallback);
    } else {
      assert Apply(w.m, InterruptReturns(turnID)) == w.m;
    }
  }

  lemma InterruptDelivers(w: World, turnID: string)
    requires w.m.s.active && w.m.s.activeTurnID == turnID
    ensures MoveRecords(w, InterruptDone(turnID)) == Journaled(w.m.s, Bare(TurnFailed, turnID))
    ensures Apply(w.m, InterruptReturns(turnID)).s == Turns.Deliver(w.m.s, Bare(TurnFailed, turnID)).0
  {
  }

  /** The machine behind a move agrees with the journal behind it exactly when the move is traced. */
  lemma MachineAgrees(request: RestoreRequest, f: Option<State>, w: World, move: Move, m: Machine)
    requires Agrees(f, w.m.s) && Coupled(w.m.s) && Ordinary(w, move)
    requires m == match StepOf(move) case Some(step) => Apply(w.m, step) case None => w.m
    requires Open(w.m.s) && Open(m.s) && |MoveRecords(w, move)| <= 1
    ensures Agrees(After(request, f, MoveRecords(w, move)), m.s) <==> Traced(w, move)
  {
    if EventMove(move) {
      EventMoveDelivers(w, move);
      DeliveryAgrees(request, f, w.m.s, move.event);
    } else if move.Calls? {
      CallAgrees(request, f, w, move.step);
    } else if move.SubmissionFails? {
      FailureAgrees(request, f, w.m.s);
    } else if move.InterruptDone? {
      InterruptAgrees(request, f, w, move.turnID);
    } else {
      assert MoveRecords(w, move) == [];
    }
  }

  lemma MoveAgrees(request: RestoreRequest, w: World, move: Move)
    requires Agrees(Rebuilt(request, w.journal), w.m.s) && Coupled(w.m.s) && Ordinary(w, move)
    requires Open(w.m.s) && Open(Provider.Moved(w, move).m.s)
    ensures Agrees(Rebuilt(request, Provider.Moved(w, move).journal), Provider.Moved(w, move).m.s)
            <==> Traced(w, move)
  {
    MoveSteps(w, move);
    MoveAppends(w, move);
    MachineAgrees(request, Rebuilt(request, w.journal), w, move, Provider.Moved(w, move).m);
    RebuiltAfter(request, w.journal, MoveRecords(w, move));
  }

  lemma MoveKeepsCoupling(w: World, move: Move)
    requires Coupled(w.m.s) && Ordinary(w, move)
    ensures Coupled(Provider.Moved(w, move).m.s)
  {
    MoveSteps(w, move);
    if StepOf(move).Some? {
      StepKeepsCoupling(w.m, StepOf(move).value);
    }
  }

  lemma ClosedStaysClosed(w: World, move: Move)
    requires !Open(w.m.s)
    ensures !Open(Provider.Moved(w, move).m.s)
  {
    MoveSteps(w, move);
    if StepOf(move).Some? {
      StepStaysClosed(w.m, StepOf(move).value);
    }
  }

  lemma {:induction false} ClosedRun(w: World, moves: seq<Move>)
    requires !Open(w.m.s)
    ensures !Open(Play(w, moves).m.s)
    decreases |moves|
  {
    if moves != [] {
      ClosedStaysClosed(w, moves[0]);
      ClosedRun(Provider.Moved(w, moves[0]), moves[1..]);
    }
  }

  // ---- Runs ----

  predicate AllOrdinary(w: World, moves: seq<Move>)
    decreases |moves|
  {
    moves == [] || (Ordinary(w, moves[0]) && AllOrdinary(Provider.Moved(w, moves[0]), moves[1..]))
  }

  predicate AllTraced(w: World, moves: seq<Move>)
    decreases |moves|
  {
    moves == [] || (Traced(w, moves[0]) && AllTraced(Provider.Moved(w, moves[0]), moves[1..]))
  }

  /** At every point of the run, a restore would find the turn that the live session is in. */
  predicate AgreesThroughout(request: RestoreRequest, w: World, moves: seq<Move>)
    decreases |moves|
  {
    && Agrees(Rebuilt(request, w.journal), w.m.s)
    && (moves != [] ==> AgreesThroughout(request, Provider.Moved(w, moves[0]), moves[1..]))
  }

  lemma {:induction false} AgreesAtTheEnd(request: RestoreRequest, w: World, moves: seq<Move>)
    requires AgreesThroughout(request, w, moves)
    ensures Agrees(Rebuilt(request, Play(w, moves).journal), Play(w, moves).m.s)
    decreases |moves|
  {
    if moves != [] {
      AgreesAtTheEnd(request, Provider.Moved(w, moves[0]), moves[1..]);
    }
  }

  /**
   From any world that agrees with its journal, and with any adapter: the journal agrees with the live
   session at every point of a run if and only if every move of it is traced.
   */
  lemma {:induction false} PlayAgrees(request: RestoreRequest, w: World, moves: seq<Move>)
    requires Agrees(Rebuilt(request, w.journal), w.m.s) && Coupled(w.m.s) && AllOrdinary(w, moves)
    requires Open(Play(w, moves).m.s)
    ensures Coupled(Play(w, moves).m.s)
    ensures AgreesThroughout(request, w, moves) <==> AllTraced(w, moves)
    decreases |moves|
  {
    if moves != [] {
      OpenBefore(w, moves);
      var w1 := Provider.Moved(w, moves[0]);
      MoveAgrees(request, w, moves[0]);
      MoveKeepsCoupling(w, moves[0]);
      if Traced(w, moves[0]) {
        PlayAgrees(request, w1, moves[1..]);
      } else {
        RunKeepsCoupling(w1, moves[1..]);
        assert !AgreesThroughout(request, w1, moves[1..]);
      }
    }
  }

  lemma {:induction false} RunKeepsCoupling(w: World, moves: seq<Move>)
    requires Coupled(w.m.s) && AllOrdinary(w, moves)
    ensures Coupled(Play(w, moves).m.s)
    decreases |moves|
  {
    if moves != [] {
      MoveKeepsCoupling(w, moves[0]);
      RunKeepsCoupling(Provider.Moved(w, moves[0]), moves[1..]);
    }
  }

  /** A session that is open at the end of a run was open all along. */
  lemma OpenBefore(w: World, moves: seq<Move>)
    requires moves != [] && Open(Play(w, moves).m.s)
    ensures Open(w.m.s) && Open(Provider.Moved(w, moves[0]).m.s)
  {
    if !Open(w.m.s) {
      ClosedRun(w, moves);
    }
    if !Open(Provider.Moved(w, moves[0]).m.s) {
      ClosedRun(Provider.Moved(w, moves[0]), moves[1..]);
    }
  }

  lemma StartAgreesWithItsJournal(request: RestoreRequest, id: string, backend: string, limit: nat, worktree: string)
    requires backend != "" && worktree != ""
    ensures var w := Start(id, backend, limit, worktree);
            Agrees(Rebuilt(request, w.journal), w.m.s) && Coupled(w.m.s) && Serial(w)
  {
    var w := Start(id, backend, limit, worktree);
    assert w.journal == [] + w.journal;
    RebuiltConcat(request, [], w.journal);
  }

  /** Well-formed events, journaled under a run that keeps the adapter contract, are always traced. */
  lemma {:induction false} ConformingRunsAreTraced(w: World, moves: seq<Move>)
    requires Serial(w) && Legal(w, moves) && Open(Play(w, moves).m.s)
    requires forall i :: 0 <= i < |moves| && EventMove(moves[i]) ==>
               WellFormed(moves[i].event) && !moves[i].event.typ.Dotted?
    ensures AllOrdinary(w, moves) && AllTraced(w, moves)
    decreases |moves|
  {
    if moves != [] {
      OpenBefore(w, moves);
      if EventMove(moves[0]) {
        WellFormedEventsAreTraced(w.m.s, moves[0].event);
      }
      SerialExactlyWhenExitsAreIdle(w, moves[0]);
      ConformingRunsAreTraced(Provider.Moved(w, moves[0]), moves[1..]);
    }
  }

  /**
   Restore refines the live session, exactly: with any adapter, folding the journal gives the live turn, its
   ID and the pending interaction, and a status that is in a turn when the live one is, at every point
   of the run of an open session, if and only if every move of the run is traced.
   */
  lemma RestoreRefinesExactly(request: RestoreRequest, id: string, backend: string, limit: nat, worktree: string,
                              moves: seq<Move>)
    requires backend != "" && worktree != ""
    requires AllOrdinary(Start(id, backend, limit, worktree), moves)
    requires Open(Play(Start(id, backend, limit, worktree), moves).m.s)
    ensures AgreesThroughout(request, Start(id, backend, limit, worktree), moves)
            <==> AllTraced(Start(id, backend, limit, worktree), moves)
  {
    StartAgreesWithItsJournal(request, id, backend, limit, worktree);
    PlayAgrees(request, Start(id, backend, limit, worktree), moves);
  }
}
