/** Rebuilding a session from its journal, and closing the turn it was in (runtime/runtime.go, Restore). */
module Restoring {
  import opened Outcomes
  import opened Text
  import opened Host
  import opened Journal
  import opened Sessions
  import opened Turns
  import opened Managed

  /** Identity that may live outside the journal. */
  datatype RestoreRequest = RestoreRequest(id: string, backend: string, worktree: string, limit: nat)

  // ---- The fold as a value ----

  function Begun(request: RestoreRequest): Option<State> {
    if !Blank(request.backend) && !Blank(request.worktree)
    then Some(Fresh(TrimSpace(request.id), TrimSpace(request.backend), request.limit)) else None
  }

  /** The interaction a record carries; records without an identified one are skipped. */
  function InteractionOf(r: Record): Option<Interaction> {
    if r.data.Fields? && r.data.interaction.Some? && !Blank(r.data.interaction.value.id)
    then r.data.interaction else None
  }

  function ResponseOf(r: Record): Option<Response> {
    if r.data.Fields? then r.data.response else None
  }

  function Restarted(request: RestoreRequest, s: Option<State>, r: Record): Option<State> {
    if r.data.Fields? && r.data.backend != "" && r.data.worktree != ""
    then Some(Fresh(TrimSpace(request.id), r.data.backend, request.limit)) else s
  }

  /** Whether a terminal record ends the given turn. */
  predicate Ends(activeTurnID: string, r: Record) {
    r.event == AgentProcessExited || r.turnID == "" || activeTurnID == "" || r.turnID == activeTurnID
  }

  /** One record applied to a session that is already known. */
  function Applied(s: State, r: Record): State {
    match r.event
    case SessionClosed => if Open(s) then s.(status := Moved(s.status, Closed)) else s
    case AgentTurnStarted =>
      if Blank(r.turnID) then s
      else s.(active := true, activeTurnID := TrimSpace(r.turnID),
              status := if s.status == Active then Moved(Active, Running) else s.status)
    case AgentInteraction | AgentPermission =>
      if InteractionOf(r) == None then s
      else s.(pending := InteractionOf(r),
              status := if s.status == Running then Moved(Running, WaitingInput) else s.status)
    case UserRequestResolved =>
      if s.pending == None || ResponseOf(r) == None then s
      else if ResponseOf(r).value.requestID == "" || ResponseOf(r).value.requestID == s.pending.value.id
      then s.(pending := None, status := if s.status == WaitingInput then Moved(WaitingInput, Running) else s.status)
      else s
    case AgentYielded | AgentInterrupted | AgentTurnFailed | AgentProcessExited =>
      if Ends(s.activeTurnID, r)
      then s.(active := false, activeTurnID := "", pending := None,
              status := if InTurn(s.status) then Moved(s.status, Active) else s.status)
      else s
    case _ => s
  }

  function Noted(request: RestoreRequest, s: Option<State>, r: Record): Option<State> {
    if r.event == SessionCreated then Restarted(request, s, r)
    else match s case None => None case Some(known) => Some(Applied(known, r))
  }

  /** The session a journal describes, before recovery; None when the journal yields no identity. */
  function Rebuilt(request: RestoreRequest, records: seq<Record>): Option<State>
    decreases |records|
  {
    if records == [] then Begun(request)
    else Noted(request, Rebuilt(request, records[..|records| - 1]), records[|records| - 1])
  }

  lemma {:induction false} RebuiltConcat(request: RestoreRequest, a: seq<Record>, b: seq<Record>)
    ensures b == [] ==> Rebuilt(request, a + b) == Rebuilt(request, a)
    ensures |b| == 1 ==> Rebuilt(request, a + b) == Noted(request, Rebuilt(request, a), b[0])
  {
    if b == [] {
      assert a + b == a;
    } else {
      assert (a + b)[..|a + b| - 1] == a + b[..|b| - 1];
      assert |b| == 1 ==> a + b[..0] == a;
    }
  }

  // ---- Recovery as a value ----

  function Cancelled(s: State): Event
    requires s.pending.Some?
  {
    Bare(InteractionResolved, s.activeTurnID).(backend := s.backend,
      response := Some(Response(s.pending.value.id, "cancel",
                                "Interaction cancelled because the host runtime restarted.")))
  }

  function Orphaned(s: State): Event {
    Bare(TurnFailed, s.activeTurnID).(backend := s.backend)
  }

  /** The recovery of a restored session: its new state and the events delivered on the way. */
  function Reconciled(s: State): (State, seq<Event>) {
    if !s.active then (s, [])
    else if s.pending == None then (Turns.Deliver(s, Orphaned(s)).0, [Stamped(s, Orphaned(s))])
    else
      var s1 := Turns.Deliver(s, Cancelled(s)).0;
      (Turns.Deliver(s1, Orphaned(s)).0, [Stamped(s, Cancelled(s)), Stamped(s1, Orphaned(s))])
  }

  // ---- Restore as the source has it ----

  method Restore(request: RestoreRequest, records: seq<Record>) returns (restored: ManagedSession?)
    ensures Rebuilt(request, records) == None <==> restored == null
    ensures restored != null ==>
              fresh(restored) && fresh(restored.session) && restored.View() == Rebuilt(request, records).value
  {
    restored := null;
    if !Blank(request.backend) && !Blank(request.worktree) {
      restored := new ManagedSession(TrimSpace(request.id), TrimSpace(request.backend), request.limit);
    }
    assert records[..0] == [];
    for i := 0 to |records|
      invariant Rebuilt(request, records[..i]) == None <==> restored == null
      invariant restored != null ==>
                  fresh(restored) && fresh(restored.session)
                  && restored.View() == Rebuilt(request, records[..i]).value
    {
      assert records[..i + 1][..i] == records[..i];
      var record := records[i];
      if record.event == SessionCreated {
        if record.data.Fields? && record.data.backend != "" && record.data.worktree != "" {
          restored := new ManagedSession(TrimSpace(request.id), record.data.backend, request.limit);
        }
      } else if restored != null {
        ApplyRecord(restored, record);
      }
    }
    assert records[..|records|] == records;
  }

  /** The body of Restore's loop for a session that is already known. */
  method ApplyRecord(restored: ManagedSession, record: Record)
    modifies restored, restored.session
    ensures restored.View() == Applied(old(restored.View()), record)
  {
    match record.event {
      case SessionClosed =>
        if restored.session.status != Closed {
          var err := restored.session.Transition(Closed);
          assert err == None;
        }
      case AgentTurnStarted =>
        if !Blank(record.turnID) {
          restored.active := true;
          restored.activeTurnID := TrimSpace(record.turnID);
          if restored.session.status == Active {
            var err := restored.session.Transition(Running);
            assert err == None;
          }
        }
      case AgentInteraction | AgentPermission =>
        var interaction := InteractionOf(record);
        if interaction.Some? {
          restored.pendingInteraction := interaction;
          if restored.session.status == Running {
            var err := restored.session.Transition(WaitingInput);
            assert err == None;
          }
        }
      case UserRequestResolved =>
        var response := ResponseOf(record);
        if restored.pendingInteraction.Some? && response.Some?
           && (response.value.requestID == "" || response.value.requestID == restored.pendingInteraction.value.id) {
          restored.pendingInteraction := None;
          if restored.session.status == WaitingInput {
            var err := restored.session.Transition(Running);
            assert err == None;
          }
        }
      case AgentYielded | AgentInterrupted | AgentTurnFailed | AgentProcessExited =>
        if Ends(restored.activeTurnID, record) {
          restored.active := false;
          restored.activeTurnID := "";
          restored.pendingInteraction := None;
          if restored.session.status == Running || restored.session.status == WaitingInput {
            var err := restored.session.Transition(Active);
            assert err == None;
          }
        }
      case _ =>
    }
  }

  method ReconcileRecoveredTurn(m: ManagedSession) returns (delivered: seq<Event>)
    modifies m, m.session
    ensures (m.View(), delivered) == Reconciled(old(m.View()))
  {
    if !m.active {
      return [];
    }
    ghost var s := m.View();
    var turnID := m.activeTurnID;
    var failed := Bare(TurnFailed, turnID).(backend := m.backend);
    delivered := [];
    if m.pendingInteraction.Some? {
      var cancel := Bare(InteractionResolved, turnID).(backend := m.backend,
        response := Some(Response(m.pendingInteraction.value.id, "cancel",
                                  "Interaction cancelled because the host runtime restarted.")));
      assert cancel == Cancelled(s);
      var stamped := m.Stamp(cancel);
      var _ := m.DeliverNow(stamped);
      delivered := [stamped];
      assert m.View() == Turns.Deliver(s, Cancelled(s)).0;
    }
    assert failed == Orphaned(s);
    var stampedFailure := m.Stamp(failed);
    var _ := m.DeliverNow(stampedFailure);
    delivered := delivered + [stampedFailure];
    assert delivered == Reconciled(s).1;
    assert m.View() == Reconciled(s).0;
  }

  // ---- Recovery is total and idempotent ----

  /** What every journal leaves behind. */
  predicate Plausible(s: State) {
    && (s.active <==> s.activeTurnID != "")
    && (InTurn(s.status) ==> s.active)
    && (s.status == Active || InTurn(s.status) || s.status == Closed)
    && s.queue == [] && !s.dispatching && !s.blocked
  }

  lemma AppliedIsPlausible(s: State, r: Record)
    requires Plausible(s)
    ensures Plausible(Applied(s, r))
  {
  }

  lemma {:induction false} RebuiltIsPlausible(request: RestoreRequest, records: seq<Record>)
    ensures Rebuilt(request, records).Some? ==> Plausible(Rebuilt(request, records).value)
    decreases |records|
  {
    if records != [] {
      var init, last := records[..|records| - 1], records[|records| - 1];
      RebuiltIsPlausible(request, init);
      if Rebuilt(request, init).Some? && last.event != SessionCreated {
        AppliedIsPlausible(Rebuilt(request, init).value, last);
      }
    }
  }

  /** The session as a host sees it once Restore has returned. */
  function Recovered(request: RestoreRequest, records: seq<Record>): Option<State> {
    match Rebuilt(request, records) case None => None case Some(s) => Some(Reconciled(s).0)
  }

  /** The records that recovery appends to the journal. */
  function RecoveryRecords(request: RestoreRequest, records: seq<Record>): seq<Record> {
    match Rebuilt(request, records) case None => [] case Some(s) => TranslateAll(Reconciled(s).1)
  }

  /** Delivering the recovery's failure ends the turn, in any status. */
  lemma OrphanEnds(s: State, turnID: string)
    requires s.activeTurnID == turnID && turnID != ""
    ensures Turns.Deliver(s, Bare(TurnFailed, turnID).(backend := s.backend)).0 == Ended(s)
  {
  }

  lemma CancelClears(s: State)
    requires s.active && s.activeTurnID != "" && s.pending.Some?
    ensures Turns.Deliver(s, Cancelled(s)).0 == s.(pending := None)
  {
  }

  /** Restore is total: whatever the journal, the session ends without a turn, active or closed. */
  lemma RecoveryIsTotal(request: RestoreRequest, records: seq<Record>)
    requires Rebuilt(request, records).Some?
    ensures var s := Recovered(request, records).value;
            && !s.active && s.activeTurnID == "" && !s.dispatching
            && (s.status == Active || s.status == Closed)
            && (s.status == Closed <==> Rebuilt(request, records).value.status == Closed)
  {
    RebuiltIsPlausible(request, records);
    var s := Rebuilt(request, records).value;
    if s.active {
      if s.pending.Some? {
        CancelClears(s);
        OrphanEnds(s.(pending := None), s.activeTurnID);
      } else {
        OrphanEnds(s, s.activeTurnID);
      }
    }
  }

  lemma CancellationNoted(request: RestoreRequest, s: State)
    requires Plausible(s) && s.active && s.pending.Some?
    ensures var e := Stamped(s, Cancelled(s));
            && Translate(e).Some?
            && Turns.Deliver(s, Cancelled(s)).0 == s.(pending := None)
            && Noted(request, Some(s), Translate(e).value)
               == Some(s.(pending := None, status := if s.status == WaitingInput then Running else s.status))
  {
  }

  lemma FailureNoted(request: RestoreRequest, s: State, f: State)
    requires Plausible(s) && s.active && s.pending == None
    requires f.activeTurnID == s.activeTurnID
    ensures var e := Stamped(s, Orphaned(s));
            && Translate(e).Some?
            && Turns.Deliver(s, Orphaned(s)).0 == Ended(s)
            && Noted(request, Some(f), Translate(e).value)
               == Some(f.(active := false, activeTurnID := "", pending := None,
                          status := if InTurn(f.status) then Active else f.status))
  {
  }

  lemma TranslateOne(e: Event)
    requires Translate(e).Some?
    ensures TranslateAll([e]) == [Translate(e).value]
  {
    assert [e][1..] == [];
  }

  /**
   Recovery is idempotent: the journal extended by the recovery's records describes exactly the
   recovered session, so restoring again emits nothing.
   */
  lemma RecoveryIsIdempotent(request: RestoreRequest, records: seq<Record>)
    requires Rebuilt(request, records).Some?
    ensures var extended := records + RecoveryRecords(request, records);
            && Rebuilt(request, extended) == Recovered(request, records)
            && RecoveryRecords(request, extended) == []
            && Recovered(request, extended) == Recovered(request, records)
  {
    RebuiltIsPlausible(request, records);
    RecoveryIsTotal(request, records);
    var s := Rebuilt(request, records).value;
    if !s.active {
      assert records + [] == records;
    } else if s.pending == None {
      FailureNoted(request, s, s);
      TranslateOne(Stamped(s, Orphaned(s)));
      RebuiltConcat(request, records, [Translate(Stamped(s, Orphaned(s))).value]);
    } else {
      RecoveryOfInteraction(request, records, s);
    }
  }

  /** A recovery that stopped behind its first record is completed by the next one. */
  lemma RecoveryMayStop(request: RestoreRequest, records: seq<Record>)
    requires |RecoveryRecords(request, records)| == 2
    ensures var done := RecoveryRecords(request, records);
            && Recovered(request, records + done[..1]) == Recovered(request, records)
            && RecoveryRecords(request, records + done[..1]) == done[1..]
  {
    RebuiltIsPlausible(request, records);
    var s := Rebuilt(request, records).value;
    var events := Reconciled(s).1;
    if s.active && s.pending.Some? {
      CancellationNoted(request, s);
      var s1 := s.(pending := None);
      var f1 := s1.(status := if s.status == WaitingInput then Running else s.status);
      FailureNoted(request, s1, f1);
      FailureNoted(request, f1, f1);
      var c, o := Stamped(s, Cancelled(s)), Stamped(s1, Orphaned(s));
      TranslateOne(c);
      TranslateOne(o);
      TranslateAllConcat([c], [o]);
      assert [c] + [o] == events;
      assert RecoveryRecords(request, records)[..1] == [Translate(c).value];
      assert RecoveryRecords(request, records)[1..] == [Translate(o).value];
      RebuiltConcat(request, records, [Translate(c).value]);
      assert Stamped(f1, Orphaned(f1)) == o;
    } else if s.active {
      TranslateOne(Stamped(s, Orphaned(s)));
    }
  }

  lemma RecoveryOfInteraction(request: RestoreRequest, records: seq<Record>, s: State)
    requires Rebuilt(request, records) == Some(s) && Plausible(s) && s.active && s.pending.Some?
    ensures Rebuilt(request, records + TranslateAll(Reconciled(s).1)) == Some(Reconciled(s).0)
  {
    CancellationNoted(request, s);
    var s1 := s.(pending := None);
    var f1 := s1.(status := if s.status == WaitingInput then Running else s.status);
    FailureNoted(request, s1, f1);
    var c, o := Stamped(s, Cancelled(s)), Stamped(s1, Orphaned(s));
    assert Orphaned(s1) == Orphaned(s);
    TranslateOne(c);
    TranslateOne(o);
    TranslateAllConcat([c], [o]);
    assert [c] + [o] == Reconciled(s).1;
    var rc, ro := Translate(c).value, Translate(o).value;
    RebuiltConcat(request, records, [rc]);
    RebuiltConcat(request, records + [rc], [ro]);
    assert records + ([rc] + [ro]) == (records + [rc]) + [ro];
  }
}
