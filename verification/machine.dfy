/**
 One session as a transition system. Its steps are the lock regions of the runtime; beside the
 session it counts the scheduled dispatch goroutines and keeps the books of the queue.
 */
module Machines {
  import opened Outcomes
  import opened Host
  import opened Sessions
  import opened Turns

  /**
   The books of the queue: the IDs it handed out, the entries that left it, and the request that callers
   last gave under each ID, by the Send that was given the ID or by a Replace of it that succeeded.
   */
  datatype Ledger = Ledger(enqueued: seq<string>, dispatched: seq<Entry>, removed: seq<Entry>, cleared: seq<Entry>,
                           asked: map<string, Request>)

  const NO_ENTRIES := Ledger([], [], [], [], map[])

  datatype Machine = Machine(s: State, scheduled: nat, ledger: Ledger)

  /**
   The steps. `Deliver` is any event of the adapter or of a caller; `SubmitFails` is failSubmission
   with its synchronous delivery, and says whether dispatchQueued made the submission, since that
   dispatches again.
   */
  datatype Step =
    | Send(request: Request, next: bool)
    | Dispatch
    | Deliver(event: Event)
    | SubmitFails(queued: bool)
    | SubmitReturns(turnID: string)
    | ClearQueue
    | InterruptReturns(turnID: string)
    | RespondStarts
    | Remove(entry: string)
    | Replace(entry: string, with: Request)
    | Block
    | Unblock
    | Close
    | StartPlain
    | StartPrompt
    | Restart(turnID: string)

  function IDs(queue: seq<Entry>): (ids: seq<string>)
    ensures |ids| == |queue| && forall i :: 0 <= i < |queue| ==> ids[i] == queue[i].id
  {
    seq(|queue|, i requires 0 <= i < |queue| => queue[i].id)
  }

  function Schedules(m: Machine, r: (State, bool)): Machine {
    m.(s := r.0, scheduled := m.scheduled + if r.1 then 1 else 0)
  }

  function Sent(m: Machine, request: Request, next: bool): Machine {
    var (s, outcome) := Turns.Send(m.s, request, next);
    if outcome.Queued? then
      Machine(s, m.scheduled, m.ledger.(enqueued := m.ledger.enqueued + [outcome.entry.id],
                                        asked := m.ledger.asked[outcome.entry.id := request]))
    else m.(s := s)
  }

  function DispatchRan(m: Machine): Machine {
    if m.scheduled == 0 then m
    else
      var (s, taken) := Turns.Dispatch(m.s);
      if taken.Some?
      then Machine(s, m.scheduled - 1, m.ledger.(dispatched := m.ledger.dispatched + [taken.value]))
      else Machine(s, m.scheduled - 1, m.ledger)
  }

  function Removed(m: Machine, entry: string): Machine {
    var (s, removed) := RemoveQueued(m.s, entry);
    if removed.Some? then Machine(s, m.scheduled, m.ledger.(removed := m.ledger.removed + [removed.value]))
    else m
  }

  function Replaced(m: Machine, entry: string, with: Request): Machine {
    var (s, replaced) := ReplaceQueued(m.s, entry, with);
    if replaced.Some? then Machine(s, m.scheduled, m.ledger.(asked := m.ledger.asked[entry := with]))
    else m.(s := s)
  }

  /** The session after its whole queue was discarded. */
  function Discarded(m: Machine, s: State): Machine {
    Machine(s, m.scheduled, m.ledger.(cleared := m.ledger.cleared + m.s.queue))
  }

  function Apply(m: Machine, step: Step): Machine {
    match step
    case Send(request, next) => Sent(m, request, next)
    case Dispatch => DispatchRan(m)
    case Deliver(event) => Schedules(m, Turns.Deliver(m.s, event))
    case SubmitFails(queued) =>
      var m1 := Schedules(m, FailSubmission(m.s));
      m1.(scheduled := m1.scheduled + if queued then 1 else 0)
    case SubmitReturns(turnID) => m.(s := Submitted(m.s, turnID))
    case ClearQueue => Discarded(m, Turns.ClearQueue(m.s))
    case InterruptReturns(turnID) => Schedules(m, InterruptReturned(m.s, turnID))
    case RespondStarts => m.(s := RespondStarted(m.s))
    case Remove(entry) => Removed(m, entry)
    case Replace(entry, with) => Replaced(m, entry, with)
    case Block => m.(s := Turns.Block(m.s))
    case Unblock => Schedules(m, Turns.Unblock(m.s))
    case Close => if Open(m.s) then Discarded(m, Turns.Close(m.s)) else m
    case StartPlain => m
    case StartPrompt => m.(s := Turns.StartPrompt(m.s))
    case Restart(turnID) => m.(s := Turns.Restart(m.s, turnID))
  }

  function Run(m: Machine, steps: seq<Step>): Machine
    decreases |steps|
  {
    if steps == [] then m else Run(Apply(m, steps[0]), steps[1..])
  }

  function Created(id: string, backend: string, limit: nat): Machine {
    Machine(Fresh(id, backend, limit), 0, NO_ENTRIES)
  }

  /** Start with a prompt is only called on an idle session. */
  predicate StartsIdle(m: Machine, step: Step) {
    step == StartPrompt ==> !m.s.active && !m.s.dispatching
  }

  predicate LegalRun(m: Machine, steps: seq<Step>)
    decreases |steps|
  {
    steps == [] || (StartsIdle(m, steps[0]) && LegalRun(Apply(m, steps[0]), steps[1..]))
  }

  // ---- Flags and lifecycle stay coupled ----

  /** In an open session the turn flags, the turn's identity and the status say the same. */
  predicate Coupled(s: State) {
    Open(s) ==>
      && (s.active <==> s.activeTurnID != "")
      && (s.active <==> InTurn(s.status))
      && !(s.active && s.dispatching)
      && (s.status == Active || InTurn(s.status))
  }

  lemma DeliveryKeepsCoupling(s: State, e: Event)
    requires Coupled(s)
    ensures Coupled(Turns.Deliver(s, e).0) && (Open(s) <==> Open(Turns.Deliver(s, e).0))
  {
  }

  lemma StepKeepsCoupling(m: Machine, step: Step)
    requires Coupled(m.s) && StartsIdle(m, step)
    ensures Coupled(Apply(m, step).s)
  {
    match step
    case Deliver(e) => DeliveryKeepsCoupling(m.s, e);
    case SubmitFails(_) => FailureKeepsCoupling(m.s);
    case InterruptReturns(turnID) =>
      if m.s.active && m.s.activeTurnID == turnID {
        DeliveryKeepsCoupling(m.s, Bare(TurnFailed, turnID));
      }
    case _ =>
  }

  lemma FailureKeepsCoupling(s: State)
    requires Coupled(s)
    ensures Coupled(FailSubmission(s).0)
  {
  }

  /** After an interrupt that succeeded the session is not stuck in the interrupted turn. */
  lemma InterruptsDoNotStick(s: State, turnID: string)
    ensures var s' := InterruptReturned(s, turnID).0;
            && !(s'.active && s'.activeTurnID == turnID)
            && (s.active && s.activeTurnID == turnID ==>
                  !s'.active && s'.activeTurnID == "" && !InTurn(s'.status) && s'.queue == s.queue)
            && (!(s.active && s.activeTurnID == turnID) ==> s' == s)
  {
  }

  // ---- No lost wakeup ----

  /** Whenever a queued turn could be dispatched, a dispatch is on its way. */
  predicate Awake(m: Machine) {
    Ready(m.s) ==> m.scheduled > 0
  }

  lemma StepKeepsAwake(m: Machine, step: Step)
    requires Awake(m) && StartsIdle(m, step)
    ensures Awake(Apply(m, step))
  {
  }

  lemma {:induction false} RunStaysCoupledAndAwake(m: Machine, steps: seq<Step>)
    requires Coupled(m.s) && Awake(m) && LegalRun(m, steps)
    ensures Coupled(Run(m, steps).s) && Awake(Run(m, steps))
    decreases |steps|
  {
    if steps != [] {
      StepKeepsCoupling(m, steps[0]);
      StepKeepsAwake(m, steps[0]);
      RunStaysCoupledAndAwake(Apply(m, steps[0]), steps[1..]);
    }
  }

  /** In every run, from any adapter: flags, turn identity and lifecycle status agree. */
  lemma FlagsAndStatusAgree(id: string, backend: string, limit: nat, steps: seq<Step>)
    requires LegalRun(Created(id, backend, limit), steps)
    ensures Coupled(Run(Created(id, backend, limit), steps).s)
  {
    RunStaysCoupledAndAwake(Created(id, backend, limit), steps);
  }

  /**
   No lost wakeup: in every run an open, unblocked, idle session with queued turns has a dispatch
   scheduled, and that dispatch takes the head of the queue.
   */
  lemma NoLostWakeup(id: string, backend: string, limit: nat, steps: seq<Step>)
    requires LegalRun(Created(id, backend, limit), steps)
    ensures var m := Run(Created(id, backend, limit), steps);
            Open(m.s) && !m.s.blocked && !m.s.active && !m.s.dispatching && m.s.queue != [] ==>
              && m.scheduled > 0
              && Apply(m, Dispatch).s.dispatching && Apply(m, Dispatch).s.queue == m.s.queue[1..]
              && Apply(m, Dispatch).ledger.dispatched == m.ledger.dispatched + [m.s.queue[0]]
  {
    RunStaysCoupledAndAwake(Created(id, backend, limit), steps);
  }

  lemma StepStaysClosed(m: Machine, step: Step)
    requires !Open(m.s)
    ensures !Open(Apply(m, step).s) && (m.s.queue == [] ==> Apply(m, step).s.queue == [])
  {
  }

  /** Once a session is closed it stays closed, with an empty queue. */
  lemma {:induction false} ClosedForGood(m: Machine, steps: seq<Step>)
    requires !Open(m.s) && m.s.queue == []
    ensures !Open(Run(m, steps).s) && Run(m, steps).s.queue == []
    decreases |steps|
  {
    if steps != [] {
      StepStaysClosed(m, steps[0]);
      ClosedForGood(Apply(m, steps[0]), steps[1..]);
    }
  }
}
