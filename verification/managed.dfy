/** A managed session as the source has it: fields that every lock region updates in place. */
module Managed {
  import opened Outcomes
  import opened Text
  import opened Host
  import opened Sessions
  import opened Turns

  class ManagedSession {
    const id: string
    const backend: string
    const maxQueuedTurns: nat
    const session: Session
    var lastTurnID: string
    var queue: seq<Entry>
    var dispatching: bool
    var active: bool
    var activeTurnID: string
    var dispatchBlocked: bool
    var pendingInteraction: Option<Interaction>
    var nextQueueSeq: nat

    ghost function View(): State
      reads this, session
    {
      State(id, backend, maxQueuedTurns, session.status, lastTurnID, queue, dispatching, active, activeTurnID,
            dispatchBlocked, pendingInteraction, nextQueueSeq)
    }

    /** A new session, moved to active at once. */
    constructor (id: string, backend: string, maxQueuedTurns: nat)
      ensures View() == Fresh(id, backend, maxQueuedTurns) && fresh(session)
    {
      this.id, this.backend, this.maxQueuedTurns := id, backend, maxQueuedTurns;
      var created := new Session();
      var err := created.Transition(Active);
      assert err == None;
      session := created;
      lastTurnID, queue, dispatching, active, activeTurnID := "", [], false, false, "";
      dispatchBlocked, pendingInteraction, nextQueueSeq := false, None, 0;
    }

    method Send(request: Request, next: bool) returns (outcome: SendOutcome)
      modifies this
      ensures (View(), outcome) == Turns.Send(old(View()), request, next)
    {
      if Blank(request.prompt) && |request.attachments| == 0 {
        return Rejected;
      }
      if session.status == Closed {
        return SessionIsClosed;
      }
      if active || dispatching || dispatchBlocked {
        if |queue| >= maxQueuedTurns {
          return QueueFull(|queue|);
        }
        nextQueueSeq := nextQueueSeq + 1;
        var entry := Entry(QueueID(id, nextQueueSeq), request);
        if next {
          queue := [entry] + queue;
        } else {
          queue := queue + [entry];
        }
        return Queued(entry, |queue|);
      }
      dispatching := true;
      active := false;
      activeTurnID := "";
      return Dispatched(request);
    }

    /** The locked part of dispatchQueued: the entry to submit, if one was taken. */
    method DispatchQueued() returns (taken: Option<Entry>)
      modifies this
      ensures (View(), taken) == Turns.Dispatch(old(View()))
    {
      if active || dispatching || dispatchBlocked || |queue| == 0 || session.status == Closed {
        return None;
      }
      taken := Some(queue[0]);
      queue := queue[1..];
      dispatching := true;
      active := false;
      activeTurnID := "";
    }

    /** deliver: the event with its missing identity filled in. */
    method Stamp(event: Event) returns (stamped: Event)
      ensures stamped == Stamped(View(), event)
    {
      stamped := event;
      if stamped.sessionID == "" {
        stamped := stamped.(sessionID := id);
      }
      if stamped.backend == "" {
        stamped := stamped.(backend := backend);
      }
      if stamped.turnID == "" && stamped.typ != TurnStarted {
        if activeTurnID != "" {
          stamped := stamped.(turnID := activeTurnID);
        } else if !active && !dispatching {
          stamped := stamped.(turnID := lastTurnID);
        }
      }
    }

    /** The locked part of deliverNow: whether a queued turn is to be dispatched. */
    method DeliverNow(event: Event) returns (dispatchNext: bool)
      modifies this, session
      ensures (View(), dispatchNext) == Turns.DeliverNow(old(View()), event)
    {
      dispatchNext := false;
      match event.typ {
        case TurnStarted =>
          if event.turnID != "" {
            dispatching := false;
            active := true;
            activeTurnID := event.turnID;
            if session.status == Active {
              var err := session.Transition(Running);
              assert err == None;
            }
          }
        case InteractionRequested =>
          pendingInteraction := event.interaction;
          if session.status == Running {
            var err := session.Transition(WaitingInput);
            assert err == None;
          }
        case InteractionResolved =>
          if event.response == None || pendingInteraction == None
             || event.response.value.requestID == pendingInteraction.value.id {
            pendingInteraction := None;
          }
        case TurnComplete | TurnFailed | ProcessExited =>
          var terminalMatches := event.typ == ProcessExited || event.turnID == "" || activeTurnID == ""
                                 || event.turnID == activeTurnID;
          if terminalMatches {
            EndTurn();
            dispatchNext := |queue| > 0 && !dispatchBlocked;
          }
        case _ =>
      }
    }

    method EndTurn()
      modifies this, session
      ensures View() == Ended(old(View()))
    {
      dispatching := false;
      active := false;
      activeTurnID := "";
      pendingInteraction := None;
      if session.status == Running || session.status == WaitingInput {
        var err := session.Transition(Active);
        assert err == None;
      }
    }

    method Deliver(event: Event) returns (dispatchNext: bool)
      modifies this, session
      ensures (View(), dispatchNext) == Turns.Deliver(old(View()), event)
    {
      var stamped := Stamp(event);
      dispatchNext := DeliverNow(stamped);
    }

    method FailSubmission() returns (dispatchNext: bool)
      modifies this, session
      ensures (View(), dispatchNext) == Turns.FailSubmission(old(View()))
    {
      dispatching := false;
      active := false;
      activeTurnID := "";
      if session.status == Running {
        var err := session.Transition(Active);
        assert err == None;
      }
      assert View() == SubmissionCleared(old(View()));
      dispatchNext := Deliver(SUBMISSION_FAILURE);
    }

    /** The first locked part of Interrupt: whether a turn has to be interrupted. */
    method DiscardQueue() returns (wasActive: bool)
      modifies this
      ensures View() == Turns.ClearQueue(old(View())) && wasActive == active
    {
      wasActive := active;
      queue := [];
    }

    /** Behind the adapter's interrupt: the fallback event for a turn that is still active. */
    method InterruptFallback(turnID: string) returns (dispatchNext: bool)
      modifies this, session
      ensures (View(), dispatchNext) == InterruptReturned(old(View()), turnID)
    {
      dispatchNext := false;
      if active && activeTurnID == turnID {
        dispatchNext := Deliver(Bare(TurnFailed, turnID));
      }
    }

    /** The first locked part of RespondInteraction: whether the answered interaction is pending. */
    method StartResponse(requestID: string) returns (pending: bool)
      modifies session
      ensures View() == RespondStarted(old(View()))
      ensures pending <==> pendingInteraction.Some? && pendingInteraction.value.id == requestID
    {
      pending := pendingInteraction.Some? && pendingInteraction.value.id == requestID;
      if session.status == WaitingInput {
        var err := session.Transition(Running);
        assert err == None;
      }
    }

    method RemoveQueuedTurn(entryID: string) returns (removed: Option<Entry>, depth: nat)
      modifies this
      ensures (View(), removed) == RemoveQueued(old(View()), entryID) && depth == |queue|
    {
      var index := -1;
      for i := 0 to |queue|
        invariant index == -1 && forall j :: 0 <= j < i ==> queue[j].id != entryID
        invariant queue == old(queue)
      {
        if queue[i].id == entryID {
          index := i;
          FindIsFirst(queue, entryID, i);
          break;
        }
      }
      if index < 0 {
        return None, |queue|;
      }
      removed := Some(queue[index]);
      queue := queue[..index] + queue[index + 1..];
      depth := |queue|;
    }

    method ReplaceQueuedTurn(entryID: string, request: Request) returns (replaced: Option<Entry>)
      modifies this
      ensures (View(), replaced) == ReplaceQueued(old(View()), entryID, request)
    {
      if Blank(request.prompt) && |request.attachments| == 0 {
        return None;
      }
      for i := 0 to |queue|
        invariant View() == old(View()) && forall j :: 0 <= j < i ==> queue[j].id != entryID
      {
        if queue[i].id == entryID {
          FindIsFirst(queue, entryID, i);
          queue := queue[i := queue[i].(request := request)];
          return Some(queue[i]);
        }
      }
      return None;
    }

    method BlockDispatch()
      modifies this
      ensures View() == Turns.Block(old(View()))
    {
      dispatchBlocked := true;
    }

    method UnblockDispatch() returns (dispatch: bool)
      modifies this
      ensures (View(), dispatch) == Turns.Unblock(old(View()))
    {
      dispatchBlocked := false;
      dispatch := !active && !dispatching && |queue| > 0 && session.status != Closed;
    }

    /** The first locked part of Start: a prompt reserves the provider. */
    method BeginStart(prompted: bool) returns (closed: bool)
      modifies this
      ensures closed <==> session.status == Closed
      ensures View() == if prompted then Turns.StartPrompt(old(View())) else old(View())
    {
      if session.status == Closed {
        return true;
      }
      if prompted {
        dispatching := true;
      }
      closed := false;
    }

    /** Behind a submission that succeeded, or a start: the provider's turn is kept. */
    method SubmitReturned(turnID: string)
      modifies this
      ensures View() == Submitted(old(View()), turnID)
    {
      lastTurnID := turnID;
    }

    /** Restart as one step, for an adapter that restarts; a running turn and a closed session refuse it. */
    method RestartProvider(turnID: string) returns (restarted: bool)
      modifies this
      ensures View() == Turns.Restart(old(View()), turnID)
      ensures restarted <==> session.status != Closed && !old(active) && !old(dispatching)
    {
      if session.status == Closed || active || dispatching {
        return false;
      }
      lastTurnID := turnID;
      dispatching := false;
      activeTurnID := "";
      return true;
    }

    /** The locked part of Close, behind the adapter's teardown. */
    method Close()
      modifies this, session
      ensures View() == Turns.Close(old(View())) && session.status == Closed
    {
      if session.status != Closed {
        var err := session.Transition(Closed);
        assert err == None;
        dispatching := false;
        active := false;
        activeTurnID := "";
        queue := [];
      }
    }
  }

  lemma {:induction false} FindIsFirst(queue: seq<Entry>, id: string, i: nat)
    requires i < |queue| && queue[i].id == id && forall j :: 0 <= j < i ==> queue[j].id != id
    ensures Find(queue, id) == Some(i)
  {
    if i > 0 {
      FindIsFirst(queue[1..], id, i - 1);
    }
  }
}
