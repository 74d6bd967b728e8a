/** What callers ask for is what is submitted: requests in the queue, refusals, and blocked sessions. */
module Requests {
  import opened Outcomes
  import opened Text
  import opened Host
  import opened Sessions
  import opened Turns
  import opened Machines
  import opened QueueBooks
  import Provider

  // ---- Requests are kept ----

  /** Every entry carries the request that was last given under its ID. */
  predicate Kept(asked: map<string, Request>, entries: seq<Entry>) {
    forall i :: 0 <= i < |entries| ==> entries[i].id in asked && asked[entries[i].id] == entries[i].request
  }

  ghost predicate AllKept(m: Machine) {
    && Kept(m.ledger.asked, m.s.queue) && Kept(m.ledger.asked, m.ledger.dispatched)
    && Kept(m.ledger.asked, m.ledger.removed) && Kept(m.ledger.asked, m.ledger.cleared)
    && (forall id :: id in m.ledger.asked <==> id in m.ledger.enqueued)
  }

  lemma KeptElsewhere(asked: map<string, Request>, entries: seq<Entry>, id: string, request: Request)
    requires Kept(asked, entries) && id !in IDs(entries)
    ensures Kept(asked[id := request], entries)
  {
    forall i | 0 <= i < |entries|
      ensures entries[i].id in asked[id := request] && asked[id := request][entries[i].id] == entries[i].request
    {
      assert IDs(entries)[i] == entries[i].id;
    }
  }

  lemma NewIDIsNowhere(m: Machine, entries: seq<Entry>)
    requires Booked(m) && AllKept(m) && Kept(m.ledger.asked, entries)
    ensures QueueID(m.s.id, m.s.nextQueueSeq + 1) !in IDs(entries)
  {
    FreshIDsAreDistinct(m);
  }

  lemma SendKeeps(m: Machine, request: Request, next: bool)
    requires Booked(m) && AllKept(m)
    ensures AllKept(Sent(m, request, next))
  {
    if Turns.Send(m.s, request, next).1.Queued? {
      SentQueue(m, request, next);
      var id := QueueID(m.s.id, m.s.nextQueueSeq + 1);
      NewIDIsNowhere(m, m.s.queue);
      NewIDIsNowhere(m, m.ledger.dispatched);
      NewIDIsNowhere(m, m.ledger.removed);
      NewIDIsNowhere(m, m.ledger.cleared);
      KeptElsewhere(m.ledger.asked, m.s.queue, id, request);
      KeptElsewhere(m.ledger.asked, m.ledger.dispatched, id, request);
      KeptElsewhere(m.ledger.asked, m.ledger.removed, id, request);
      KeptElsewhere(m.ledger.asked, m.ledger.cleared, id, request);
    }
  }

  lemma TakeKeeps(asked: map<string, Request>, queue: seq<Entry>, taken: seq<Entry>, k: nat)
    requires Kept(asked, queue) && Kept(asked, taken) && k < |queue|
    ensures Kept(asked, queue[..k] + queue[k + 1..]) && Kept(asked, taken + [queue[k]])
  {
  }

  lemma ReplaceKeeps(m: Machine, entry: string, with: Request)
    requires Booked(m) && AllKept(m)
    ensures AllKept(Replaced(m, entry, with))
  {
    ReplacedQueue(m, entry, with);
    if !EmptyRequest(with) && Find(m.s.queue, entry).Some? {
      var k := Find(m.s.queue, entry).value;
      QueueIsDistinct(m);
      assert IDs(m.s.queue)[k] == entry;
      KeptElsewhere(m.ledger.asked, m.ledger.dispatched, entry, with);
      KeptElsewhere(m.ledger.asked, m.ledger.removed, entry, with);
      KeptElsewhere(m.ledger.asked, m.ledger.cleared, entry, with);
      ReplacedKept(m.ledger.asked, m.s.queue, k, with);
    }
  }

  lemma ReplacedKept(asked: map<string, Request>, queue: seq<Entry>, k: nat, with: Request)
    requires Kept(asked, queue) && Distinct(IDs(queue)) && k < |queue|
    ensures Kept(asked[queue[k].id := with], queue[k := Entry(queue[k].id, with)])
  {
    assert forall i :: 0 <= i < |queue| && i != k ==> IDs(queue)[i] != IDs(queue)[k];
  }

  lemma StepKeeps(m: Machine, step: Step)
    requires Booked(m) && AllKept(m)
    ensures AllKept(Apply(m, step))
  {
    if step.Send? {
      SendKeeps(m, step.request, step.next);
    } else if step.Dispatch? {
      if m.scheduled > 0 && Ready(m.s) {
        DispatchedQueue(m);
        TakeKeeps(m.ledger.asked, m.s.queue, m.ledger.dispatched, 0);
      } else {
        NothingDispatched(m);
      }
    } else if step.Remove? {
      RemoveKeeps(m, step.entry);
    } else if step.Replace? {
      ReplaceKeeps(m, step.entry, step.with);
    } else if step.ClearQueue? || step.Close? {
      DiscardKeeps(m, step);
    } else {
      OtherStepsLeaveQueue(m, step);
    }
  }

  lemma RemoveKeeps(m: Machine, entry: string)
    requires AllKept(m)
    ensures AllKept(Removed(m, entry))
  {
    var found := Find(m.s.queue, entry);
    if found.Some? {
      RemovedQueue(m, entry, found.value);
      TakeKeeps(m.ledger.asked, m.s.queue, m.ledger.removed, found.value);
    }
  }

  lemma DiscardKeeps(m: Machine, step: Step)
    requires AllKept(m) && (step.ClearQueue? || step.Close?)
    ensures AllKept(Apply(m, step))
  {
    DiscardingSteps(m, step);
  }

  lemma {:induction false} RunKeeps(m: Machine, steps: seq<Step>)
    requires Booked(m) && AllKept(m)
    ensures AllKept(Run(m, steps))
    decreases |steps|
  {
    if steps != [] {
      StepKeeps(m, steps[0]);
      StepBooks(m, steps[0]);
      RunKeeps(Apply(m, steps[0]), steps[1..]);
    }
  }

  /**
   Requests are kept: over every run, whatever is queued, dispatched, returned by a removal or discarded
   under an ID carries the request of the Send that was given that ID, or of the last Replace of it that
   succeeded.
   */
  lemma RequestsAreKept(id: string, backend: string, limit: nat, steps: seq<Step>)
    ensures var m := Run(Created(id, backend, limit), steps);
            forall e :: e in m.s.queue || e in m.ledger.dispatched || e in m.ledger.removed || e in m.ledger.cleared ==>
                          e.id in m.ledger.asked && m.ledger.asked[e.id] == e.request
  {
    CreatedIsBooked(id, backend, limit);
    RunKeeps(Created(id, backend, limit), steps);
  }

  // ---- What callers are answered ----

  /** Send refuses, queues or submits: which, and that what it takes is the caller's request. */
  lemma SendAnswers(s: State, request: Request, next: bool)
    ensures var (s', answer) := Turns.Send(s, request, next);
            var empty := TrimSpace(request.prompt) == "" && request.attachments == [];
            var busy := s.active || s.dispatching || s.blocked;
            && (answer == Rejected <==> empty)
            && (answer == SessionIsClosed <==> !empty && s.status == Closed)
            && (answer == QueueFull(|s.queue|) <==> !empty && s.status != Closed && busy && s.limit <= |s.queue|)
            && (answer == Queued(Entry(QueueID(s.id, s.nextQueueSeq + 1), request), |s.queue| + 1)
                <==> !empty && s.status != Closed && busy && |s.queue| < s.limit)
            && (answer == Turns.Dispatched(request) <==> !empty && s.status != Closed && !busy)
            && (!answer.Queued? && !answer.Dispatched? ==> s' == s)
            && (answer.Dispatched? ==> s'.dispatching && s'.queue == s.queue)
  {
  }

  lemma FindExactly(queue: seq<Entry>, id: string)
    ensures Find(queue, id).Some? <==> id in IDs(queue)
  {
    if Find(queue, id).Some? {
      assert IDs(queue)[Find(queue, id).value] == id;
    } else {
      assert forall i :: 0 <= i < |queue| ==> IDs(queue)[i] != id;
    }
  }

  /** A queued ID can be removed and replaced, and no other; an empty request replaces nothing. */
  lemma QueuedEntriesCanBeChanged(s: State, id: string, with: Request)
    ensures RemoveQueued(s, id).1.Some? <==> id in IDs(s.queue)
    ensures ReplaceQueued(s, id, with).1.Some?
            <==> id in IDs(s.queue) && !(TrimSpace(with.prompt) == "" && with.attachments == [])
    ensures RemoveQueued(s, id).1.Some? ==> RemoveQueued(s, id).1.value.id == id
    ensures ReplaceQueued(s, id, with).1.Some? ==> ReplaceQueued(s, id, with).1 == Some(Entry(id, with))
  {
    FindExactly(s.queue, id);
  }

  // ---- Blocked sessions submit nothing ----

  /** How often Send or a dispatch of the queue submits a turn in a run. */
  function Submissions(m: Machine, steps: seq<Step>): nat
    decreases |steps|
  {
    if steps == [] then 0
    else (if (steps[0].Send? || steps[0].Dispatch?) && Apply(m, steps[0]).s.dispatching && !m.s.dispatching then 1 else 0)
         + Submissions(Apply(m, steps[0]), steps[1..])
  }

  lemma BlockedStep(m: Machine, step: Step)
    requires m.s.blocked && step != Unblock
    ensures Apply(m, step).s.blocked
    ensures step.Send? || step.Dispatch? ==>
              && Provider.NewReservations(m, step) == multiset{}
              && Apply(m, step).s.dispatching == m.s.dispatching
    ensures Apply(m, step).ledger.dispatched == m.ledger.dispatched
  {
  }

  /** Between Block and Unblock neither Send nor a dispatch of the queue submits a turn. */
  lemma {:induction false} BlockedSubmitsNothing(m: Machine, steps: seq<Step>)
    requires m.s.blocked && Unblock !in steps
    ensures Submissions(m, steps) == 0
    ensures Run(m, steps).s.blocked && Run(m, steps).ledger.dispatched == m.ledger.dispatched
    decreases |steps|
  {
    if steps != [] {
      BlockedStep(m, steps[0]);
      BlockedSubmitsNothing(Apply(m, steps[0]), steps[1..]);
    }
  }

  lemma BlockHolds(m: Machine, steps: seq<Step>)
    requires Unblock !in steps
    ensures var blocked := Apply(m, Block);
            && Submissions(blocked, steps) == 0
            && Run(blocked, steps).ledger.dispatched == m.ledger.dispatched
            && blocked.s == m.s.(blocked := true) && blocked.scheduled == m.scheduled
  {
    BlockedSubmitsNothing(Apply(m, Block), steps);
  }

  /** Unblock lets turns through again: a waiting queue gets its dispatch, and an idle session takes a Send. */
  lemma UnblockResumes(m: Machine, request: Request)
    requires Open(m.s) && !m.s.active && !m.s.dispatching
    ensures var m' := Apply(m, Unblock);
            && m'.s == m.s.(blocked := false)
            && (m.s.queue != [] ==> m'.scheduled == m.scheduled + 1 && Apply(m', Dispatch).s.dispatching)
            && (!EmptyRequest(request) ==> Apply(m', Step.Send(request, false)).s.dispatching)
  {
  }

  /** A terminal event asks for a dispatch exactly when it ends the turn of a session with a queue, unblocked. */
  lemma DispatchIsDueExactly(s: State, e: Event)
    ensures Turns.DeliverNow(s, e).1
            <==> && (e.typ == TurnComplete || e.typ == TurnFailed || e.typ == ProcessExited)
                 && (e.typ == ProcessExited || e.turnID == "" || s.activeTurnID == "" || e.turnID == s.activeTurnID)
                 && s.queue != [] && !s.blocked
  {
  }

  // ---- Events take the session's identity ----

  predicate NamesTurn(step: Step) {
    step.SubmitReturns? || step.Restart?
  }

  /** The last turn is the one of the last submission that returned, or of the restart behind it. */
  lemma {:induction false} LastTurnIsRemembered(m: Machine, steps: seq<Step>)
    requires forall i :: 0 <= i < |steps| ==> !NamesTurn(steps[i])
    ensures Run(m, steps).s.lastTurnID == m.s.lastTurnID
    decreases |steps|
  {
    if steps != [] {
      LastTurnKept(m, steps[0]);
      LastTurnIsRemembered(Apply(m, steps[0]), steps[1..]);
    }
  }

  lemma LastTurnKept(m: Machine, step: Step)
    requires !NamesTurn(step)
    ensures Apply(m, step).s.lastTurnID == m.s.lastTurnID
  {
    if step.Deliver? {
      DeliveryKeepsTheLastTurn(m.s, step.event);
    } else if step.SubmitFails? {
      DeliveryKeepsTheLastTurn(SubmissionCleared(m.s), SUBMISSION_FAILURE);
    } else if step.InterruptReturns? {
      DeliveryKeepsTheLastTurn(m.s, Bare(TurnFailed, step.turnID));
    }
  }

  lemma DeliveryKeepsTheLastTurn(s: State, e: Event)
    ensures Turns.Deliver(s, e).0.lastTurnID == s.lastTurnID
  {
  }

  /** An event without a turn, delivered to an idle session, is about the turn that was submitted last. */
  lemma LateEventsNameTheLastTurn(m: Machine, turnID: string, steps: seq<Step>, e: Event)
    requires forall i :: 0 <= i < |steps| ==> !NamesTurn(steps[i])
    requires e.turnID == "" && e.typ != TurnStarted
    ensures var after := Run(Apply(m, SubmitReturns(turnID)), steps).s;
            after.activeTurnID == "" && !after.active && !after.dispatching ==> Stamped(after, e).turnID == turnID
  {
    LastTurnIsRemembered(Apply(m, SubmitReturns(turnID)), steps);
  }

  /** An event keeps what it says of itself, and takes from the session what it leaves out. */
  lemma EventsTakeTheSessionsIdentity(s: State, e: Event)
    ensures var stamped := Stamped(s, e);
            && stamped.sessionID == (if e.sessionID != "" then e.sessionID else s.id)
            && stamped.backend == (if e.backend != "" then e.backend else s.backend)
            && (e.turnID != "" ==> stamped.turnID == e.turnID)
            && (e.typ == TurnStarted ==> stamped.turnID == e.turnID)
            && (e.turnID == "" && e.typ != TurnStarted && s.activeTurnID != "" ==> stamped.turnID == s.activeTurnID)
            && (e.turnID == "" && e.typ != TurnStarted && s.activeTurnID == "" ==>
                  stamped.turnID == if s.active || s.dispatching then "" else s.lastTurnID)
            && stamped == e.(sessionID := stamped.sessionID, backend := stamped.backend, turnID := stamped.turnID)
  {
  }
}
