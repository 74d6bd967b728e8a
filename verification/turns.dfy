/**
 The turn and queue state of one session (runtime/runtime.go), one function for each region that
 holds the runtime's lock.
 */
module Turns {
  import opened Outcomes
  import opened Text
  import opened Host
  import opened Sessions

  /** A turn request; `settings` stands for the model, reasoning, permission and extension fields. */
  datatype Request = Request(prompt: string, attachments: seq<string>, settings: string)

  datatype Entry = Entry(id: string, request: Request)

  /** The fields of a managed session that turns and the queue move. */
  datatype State = State(
    id: string,
    backend: string,
    limit: nat,
    status: Status,
    lastTurnID: string,
    queue: seq<Entry>,
    dispatching: bool,
    active: bool,
    activeTurnID: string,
    blocked: bool,
    pending: Option<Interaction>,
    nextQueueSeq: nat)

  function QueueID(session: string, n: nat): string {
    session + ":q" + ":" + Decimal(n)
  }

  predicate Open(s: State) {
    s.status != Closed
  }

  /** A session as Create or Restore first has it. */
  function Fresh(id: string, backend: string, limit: nat): State {
    State(id, backend, limit, Active, "", [], false, false, "", false, None, 0)
  }

  predicate EmptyRequest(r: Request) {
    Blank(r.prompt) && r.attachments == []
  }

  function Reserved(s: State): State {
    s.(dispatching := true, active := false, activeTurnID := "")
  }

  // ---- send ----

  datatype SendOutcome =
    | Rejected
    | SessionIsClosed
    | QueueFull(depth: nat)
    | Queued(entry: Entry, depth: nat)
    | Dispatched(request: Request)

  function Send(s: State, request: Request, next: bool): (State, SendOutcome) {
    if EmptyRequest(request) then (s, Rejected)
    else if !Open(s) then (s, SessionIsClosed)
    else if s.active || s.dispatching || s.blocked then
      if |s.queue| >= s.limit then (s, QueueFull(|s.queue|))
      else
        var entry := Entry(QueueID(s.id, s.nextQueueSeq + 1), request);
        (s.(nextQueueSeq := s.nextQueueSeq + 1,
            queue := if next then [entry] + s.queue else s.queue + [entry]),
         Queued(entry, |s.queue| + 1))
    else (Reserved(s), Dispatched(request))
  }

  // ---- dispatchQueued ----

  predicate Ready(s: State) {
    !s.active && !s.dispatching && !s.blocked && s.queue != [] && Open(s)
  }

  function Dispatch(s: State): (State, Option<Entry>) {
    if Ready(s) then (Reserved(s).(queue := s.queue[1..]), Some(s.queue[0])) else (s, None)
  }

  // ---- deliver and deliverNow ----

  /** deliver fills in the identity an event lacks. */
  function Stamped(s: State, e: Event): Event {
    e.(sessionID := if e.sessionID == "" then s.id else e.sessionID,
       backend := if e.backend == "" then s.backend else e.backend,
       turnID :=
         if e.turnID != "" || e.typ == TurnStarted then e.turnID
         else if s.activeTurnID != "" then s.activeTurnID
         else if !s.active && !s.dispatching then s.lastTurnID
         else e.turnID)
  }

  predicate TerminalMatches(s: State, e: Event) {
    e.typ == ProcessExited || e.turnID == "" || s.activeTurnID == "" || e.turnID == s.activeTurnID
  }

  function Ended(s: State): State {
    s.(dispatching := false, active := false, activeTurnID := "", pending := None,
       status := if InTurn(s.status) then Moved(s.status, Active) else s.status)
  }

  /** The locked part of deliverNow: the new state, and whether a queued turn is to be dispatched. */
  function DeliverNow(s: State, e: Event): (State, bool) {
    match e.typ
    case TurnStarted =>
      if e.turnID == "" then (s, false)
      else
        (s.(dispatching := false, active := true, activeTurnID := e.turnID,
            status := if s.status == Active then Moved(Active, Running) else s.status), false)
    case InteractionRequested =>
      (s.(pending := e.interaction,
          status := if s.status == Running then Moved(Running, WaitingInput) else s.status), false)
    case InteractionResolved =>
      (if e.response == None || s.pending == None || e.response.value.requestID == s.pending.value.id
       then s.(pending := None) else s, false)
    case TurnComplete | TurnFailed | ProcessExited =>
      if TerminalMatches(s, e) then (Ended(s), s.queue != [] && !s.blocked) else (s, false)
    case _ => (s, false)
  }

  function Deliver(s: State, e: Event): (State, bool) {
    DeliverNow(s, Stamped(s, e))
  }

  // ---- failSubmission ----

  function SubmissionCleared(s: State): State {
    s.(dispatching := false, active := false, activeTurnID := "",
       status := if s.status == Running then Moved(Running, Active) else s.status)
  }

  const SUBMISSION_FAILURE := Bare(TurnFailed, "")

  function FailSubmission(s: State): (State, bool) {
    Deliver(SubmissionCleared(s), SUBMISSION_FAILURE)
  }

  // ---- Interrupt ----

  function ClearQueue(s: State): State {
    s.(queue := [])
  }

  /** The check behind a successful adapter interrupt, with the fallback event it may deliver. */
  function InterruptReturned(s: State, turnID: string): (State, bool) {
    if s.active && s.activeTurnID == turnID then Deliver(s, Bare(TurnFailed, turnID)) else (s, false)
  }

  // ---- RespondInteraction ----

  function RespondStarted(s: State): State {
    if s.status == WaitingInput then s.(status := Moved(WaitingInput, Running)) else s
  }

  // ---- Queue edits ----

  /** The position of an entry, or None. */
  function Find(queue: seq<Entry>, id: string): (r: Option<nat>)
    ensures r.Some? ==> r.value < |queue| && queue[r.value].id == id
    ensures forall i :: 0 <= i < (if r.Some? then r.value else |queue|) ==> queue[i].id != id
  {
    if queue == [] then None
    else if queue[0].id == id then Some(0)
    else match Find(queue[1..], id) case Some(i) => Some(i + 1) case None => None
  }

  function RemoveQueued(s: State, id: string): (State, Option<Entry>) {
    match Find(s.queue, id)
    case None => (s, None)
    case Some(i) => (s.(queue := s.queue[..i] + s.queue[i + 1..]), Some(s.queue[i]))
  }

  function ReplaceQueued(s: State, id: string, request: Request): (State, Option<Entry>) {
    if EmptyRequest(request) then (s, None)
    else match Find(s.queue, id)
      case None => (s, None)
      case Some(i) => (s.(queue := s.queue[i := s.queue[i].(request := request)]), Some(Entry(id, request)))
  }

  // ---- Blocking, closing ----

  function Block(s: State): State {
    s.(blocked := true)
  }

  function Unblock(s: State): (State, bool) {
    (s.(blocked := false), !s.active && !s.dispatching && s.queue != [] && Open(s))
  }

  function Close(s: State): State {
    if Open(s) then
      s.(status := Moved(s.status, Closed), dispatching := false, active := false, activeTurnID := "", queue := [])
    else s
  }

  // ---- Start with a prompt, Restart ----

  function StartPrompt(s: State): State {
    if Open(s) then s.(dispatching := true) else s
  }

  /** Restart, refused while a turn is running, as one step; the provider reports its last turn. */
  function Restart(s: State, lastTurnID: string): State {
    if Open(s) && !s.active && !s.dispatching
    then s.(dispatching := false, activeTurnID := "", lastTurnID := lastTurnID) else s
  }

  /** A submission returned: the session keeps the backend's turn ID. */
  function Submitted(s: State, turnID: string): State {
    s.(lastTurnID := turnID)
  }
}
