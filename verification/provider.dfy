/**
 A session together with its provider: the submissions and turns in flight, the adapter contract
 (host/types.go), and the journal the run leaves behind.
 */
module Provider {
  import opened Outcomes
  import opened Host
  import opened Journal
  import opened Turns
  import opened Machines

  /**
   `reserved` holds the submissions whose SendTurn (or prompted StartSession) has neither started a
   turn nor failed, each marked with whether it came from the queue; `running` the turns running at
   the provider; `interrupts` the turn IDs of adapter interrupts that have not returned.
   */
  datatype World = World(m: Machine, reserved: multiset<bool>, running: set<string>,
                         interrupts: multiset<string>, journal: seq<Record>)

  datatype Move =
    | Calls(step: Step)
    | TurnStarts(queued: bool, event: Event)
    | TurnEnds(event: Event)
    | ProcessExits(event: Event)
    | OtherEvent(event: Event)
    | SubmissionFails(queued: bool)
    | InterruptCalled
    | EndsQuietly(turnID: string)
    | InterruptDone(turnID: string)

  /** The steps that callers of the runtime take. */
  predicate CallerStep(step: Step) {
    !(step.Deliver? || step.SubmitFails? || step.InterruptReturns?)
  }

  // ---- The journal of a run ----

  function Journaled(s: State, e: Event): seq<Record> {
    match Translate(Stamped(s, e)) case Some(r) => [r] case None => []
  }

  function Lifecycle(s: State, name: EventName, worktree: string): Record {
    Draft(s.id, name, "", "", NO_FIELDS.(backend := s.backend, worktree := worktree))
  }

  function CallRecords(s: State, step: Step): seq<Record> {
    match step
    case Close => if Open(s) then [Lifecycle(s, SessionClosed, "")] else []
    case StartPlain | StartPrompt => if Open(s) then [Lifecycle(s, SessionStarted, "")] else []
    case Restart(_) =>
      if Open(s) && !s.active && !s.dispatching then [Lifecycle(s, Extension("session.restarted"), "")] else []
    case _ => []
  }

  // ---- Moves ----

  function Delivered(w: World, e: Event): World {
    w.(m := Apply(w.m, Deliver(e)), journal := w.journal + Journaled(w.m.s, e))
  }

  /** What a caller's step reserves at the provider. */
  function NewReservations(m: Machine, step: Step): multiset<bool> {
    match step
    case Send(request, next) => if Turns.Send(m.s, request, next).1.Dispatched? then multiset{false} else multiset{}
    case Dispatch => if m.scheduled > 0 && Ready(m.s) then multiset{true} else multiset{}
    case StartPrompt => if Open(m.s) then multiset{false} else multiset{}
    case _ => multiset{}
  }

  function Moved(w: World, move: Move): World {
    match move
    case Calls(step) =>
      var w1 := w.(m := Apply(w.m, step), reserved := w.reserved + NewReservations(w.m, step),
                   journal := w.journal + CallRecords(w.m.s, step));
      if step == Close && Open(w.m.s) then w1.(reserved := multiset{}, running := {}) else w1
    case TurnStarts(queued, e) =>
      Delivered(w, e).(reserved := w.reserved - multiset{queued}, running := w.running + {e.turnID})
    case TurnEnds(e) => Delivered(w, e).(running := w.running - {e.turnID})
    case ProcessExits(e) => Delivered(w, e).(running := {})
    case OtherEvent(e) => Delivered(w, e)
    case SubmissionFails(queued) =>
      w.(m := Apply(w.m, SubmitFails(queued)), reserved := w.reserved - multiset{queued},
         journal := w.journal + Journaled(SubmissionCleared(w.m.s), SUBMISSION_FAILURE))
    case InterruptCalled => w.(interrupts := w.interrupts + multiset{w.m.s.activeTurnID})
    case EndsQuietly(turnID) => w.(running := w.running - {turnID})
    case InterruptDone(turnID) =>
      w.(m := Apply(w.m, InterruptReturns(turnID)), interrupts := w.interrupts - multiset{turnID},
         journal := w.journal +
           if w.m.s.active && w.m.s.activeTurnID == turnID then Journaled(w.m.s, Bare(TurnFailed, turnID)) else [])
  }

  /**
   The adapter contract: a turn starts once, identified, out of a submission that has not failed; its terminal event carries that ID and comes while it runs; a submission that fails
   has started no turn; an interrupt that returns has ended the turn it was called for. Of the callers
   it is asked that Start with a prompt finds an idle session.
   */
  predicate Contract(w: World, move: Move) {
    match move
    case Calls(step) => CallerStep(step) && StartsIdle(w.m, step)
    case TurnStarts(queued, e) =>
      e.typ == TurnStarted && e.turnID != "" && queued in w.reserved
    case TurnEnds(e) => (e.typ == TurnComplete || e.typ == TurnFailed) && e.turnID in w.running
    case ProcessExits(e) => e.typ == ProcessExited
    case OtherEvent(e) => e.typ != TurnStarted && !IsTerminal(e.typ)
    case SubmissionFails(queued) => queued in w.reserved || !Open(w.m.s)
    case InterruptCalled => true
    case EndsQuietly(turnID) => turnID in w.interrupts
    case InterruptDone(turnID) => turnID in w.interrupts && turnID !in w.running
  }

  /** The one thing the contract leaves open: a process exit while a submission is outstanding. */
  predicate ExitsIdle(w: World, move: Move) {
    move.ProcessExits? ==> w.reserved == multiset{}
  }

  function Start(id: string, backend: string, limit: nat, worktree: string): World {
    var m := Created(id, backend, limit);
    World(m, multiset{}, {}, multiset{}, [Lifecycle(m.s, SessionCreated, worktree)])
  }

  function Play(w: World, moves: seq<Move>): World
    decreases |moves|
  {
    if moves == [] then w else Play(Moved(w, moves[0]), moves[1..])
  }

  predicate Contracted(w: World, moves: seq<Move>)
    decreases |moves|
  {
    moves == [] || (Contract(w, moves[0]) && Contracted(Moved(w, moves[0]), moves[1..]))
  }

  predicate Legal(w: World, moves: seq<Move>)
    decreases |moves|
  {
    moves == [] || (Contract(w, moves[0]) && ExitsIdle(w, moves[0]) && Legal(Moved(w, moves[0]), moves[1..]))
  }

  function InFlight(w: World): nat {
    |w.reserved| + |w.running|
  }

  // ---- Serialized turns ----

  /** At most one turn is reserved or running at the provider, and the session knows which. */
  predicate Serial(w: World) {
    && Coupled(w.m.s)
    && InFlight(w) <= 1
    && (Open(w.m.s) && w.reserved != multiset{} ==> w.m.s.dispatching)
    && (Open(w.m.s) ==> forall id :: id in w.running ==> w.m.s.active && w.m.s.activeTurnID == id)
    && (!Open(w.m.s) ==> InFlight(w) == 0)
  }

  lemma NoReservation(r: multiset<bool>)
    ensures |r| == 0 <==> r == multiset{}
    ensures forall b :: b in r && |r| <= 1 ==> r == multiset{b} && r - multiset{b} == multiset{}
  {
    forall b | b in r && |r| <= 1
      ensures r == multiset{b} && r - multiset{b} == multiset{}
    {
      assert r == (r - multiset{b}) + multiset{b};
      assert |r - multiset{b}| == 0;
    }
  }

  lemma NoTurn(r: set<string>)
    ensures |r| == 0 <==> r == {}
    ensures forall id :: id in r && |r| <= 1 ==> r == {id}
  {
    forall id | id in r && |r| <= 1
      ensures r == {id}
    {
      assert r == (r - {id}) + {id};
      assert |r - {id}| == 0;
    }
  }

  predicate SameFlags(s: State, s': State) {
    Open(s') <==> Open(s) && s'.dispatching == s.dispatching && s'.active == s.active
                  && s'.activeTurnID == s.activeTurnID
  }

  /** A caller's step reserves a turn only in an idle session, and otherwise leaves the flags alone. */
  lemma CallReservesWhenIdle(m: Machine, step: Step)
    requires Coupled(m.s) && CallerStep(step) && StartsIdle(m, step)
    ensures var added, s' := NewReservations(m, step), Apply(m, step).s;
            if added != multiset{} then
              |added| == 1 && Open(m.s) && !m.s.active && !m.s.dispatching && Open(s') && s'.dispatching
            else step == Close || (!Open(m.s) && !Open(s')) || (Open(s') && SameFlags(m.s, s'))
  {
  }

  lemma CallKeepsSerial(w: World, step: Step)
    requires Serial(w) && Contract(w, Calls(step))
    ensures Serial(Moved(w, Calls(step)))
  {
    StepKeepsCoupling(w.m, step);
    CallReservesWhenIdle(w.m, step);
    NoReservation(w.reserved);
    NoTurn(w.running);
    var added := NewReservations(w.m, step);
    assert |w.reserved + added| == |w.reserved| + |added|;
    if added == multiset{} {
      assert w.reserved + added == w.reserved;
    }
    if step == Close {
      assert !Open(Apply(w.m, step).s);
    }
  }

  lemma TurnStartKeepsSerial(w: World, queued: bool, e: Event)
    requires Serial(w) && Contract(w, TurnStarts(queued, e))
    ensures Serial(Moved(w, TurnStarts(queued, e)))
  {
    NoReservation(w.reserved);
    NoTurn(w.running);
    assert w.reserved == multiset{queued} && w.running == {};
    assert w.running + {e.turnID} == {e.turnID};
    DeliveryKeepsCoupling(w.m.s, e);
  }

  lemma TurnEndKeepsSerial(w: World, e: Event)
    requires Serial(w) && Contract(w, TurnEnds(e))
    ensures Serial(Moved(w, TurnEnds(e)))
  {
    NoReservation(w.reserved);
    NoTurn(w.running);
    assert w.running == {e.turnID} && w.running - {e.turnID} == {};
    DeliveryKeepsCoupling(w.m.s, e);
  }

  lemma OtherEventKeepsSerial(w: World, e: Event)
    requires Serial(w) && Contract(w, OtherEvent(e))
    ensures Serial(Moved(w, OtherEvent(e)))
  {
    DeliveryKeepsCoupling(w.m.s, e);
  }

  lemma FailureKeepsSerial(w: World, queued: bool)
    requires Serial(w) && Contract(w, SubmissionFails(queued))
    ensures Serial(Moved(w, SubmissionFails(queued)))
  {
    NoReservation(w.reserved);
    NoTurn(w.running);
    assert w.reserved - multiset{queued} == multiset{};
    StepKeepsCoupling(w.m, SubmitFails(queued));
  }

  lemma InterruptKeepsSerial(w: World, turnID: string)
    requires Serial(w) && Contract(w, InterruptDone(turnID))
    ensures Serial(Moved(w, InterruptDone(turnID)))
  {
    StepKeepsCoupling(w.m, InterruptReturns(turnID));
    NoReservation(w.reserved);
    NoTurn(w.running);
    if w.m.s.active && w.m.s.activeTurnID == turnID {
      assert forall id :: id in w.running ==> id == turnID;
    }
  }

  lemma QuietEndKeepsSerial(w: World, turnID: string)
    requires Serial(w)
    ensures Serial(Moved(w, EndsQuietly(turnID)))
  {
    NoTurn(w.running);
    assert w.running - {turnID} == w.running || w.running - {turnID} == {};
  }

  lemma AdapterMoveKeepsSerial(w: World, move: Move)
    requires Serial(w) && Contract(w, move) && !move.Calls? && !move.ProcessExits?
    ensures Serial(Moved(w, move))
  {
    match move
    case TurnStarts(queued, e) => TurnStartKeepsSerial(w, queued, e);
    case TurnEnds(e) => TurnEndKeepsSerial(w, e);
    case OtherEvent(e) => OtherEventKeepsSerial(w, e);
    case SubmissionFails(queued) => FailureKeepsSerial(w, queued);
    case InterruptCalled =>
    case EndsQuietly(turnID) => QuietEndKeepsSerial(w, turnID);
    case InterruptDone(turnID) => InterruptKeepsSerial(w, turnID);
  }

  /**
   Under the adapter contract a move keeps turns serialized exactly when it is not a process exit
   with a submission outstanding.
   */
  lemma SerialExactlyWhenExitsAreIdle(w: World, move: Move)
    requires Serial(w) && Contract(w, move)
    ensures Serial(Moved(w, move)) <==> ExitsIdle(w, move)
  {
    if move.Calls? {
      CallKeepsSerial(w, move.step);
    } else if move.ProcessExits? {
      NoReservation(w.reserved);
    } else {
      AdapterMoveKeepsSerial(w, move);
    }
  }

  lemma {:induction false} PlayStaysSerial(w: World, moves: seq<Move>)
    requires Serial(w) && Legal(w, moves)
    ensures Serial(Play(w, moves))
    decreases |moves|
  {
    if moves != [] {
      SerialExactlyWhenExitsAreIdle(w, moves[0]);
      PlayStaysSerial(Moved(w, moves[0]), moves[1..]);
    }
  }

  /**
   Serialized turns: every run has at most one turn reserved or running at the provider, and in an
   open session a turn in flight means that the session is dispatching or active.
   */
  lemma OneTurnAtATime(id: string, backend: string, limit: nat, worktree: string, moves: seq<Move>)
    requires Legal(Start(id, backend, limit, worktree), moves)
    ensures var w := Play(Start(id, backend, limit, worktree), moves);
            && InFlight(w) <= 1
            && (Open(w.m.s) && InFlight(w) == 1 ==> w.m.s.dispatching || w.m.s.active)
            && (forall turn :: turn in w.running && Open(w.m.s) ==> w.m.s.activeTurnID == turn)
  {
    PlayStaysSerial(Start(id, backend, limit, worktree), moves);
    var w := Play(Start(id, backend, limit, worktree), moves);
    NoReservation(w.reserved);
    NoTurn(w.running);
    if w.running != {} {
      var turn :| turn in w.running;
    }
  }

  // ---- Why the condition is needed ----

  /**
   From every serialized open session: a process exit with a submission outstanding frees the session
   while the submission still counts, and the next turn that is sent is the second one at the provider.
   */
  lemma ExitDuringSubmissionDoublesTurns(w: World, e: Event, r: Request)
    requires Serial(w) && Open(w.m.s) && Contract(w, ProcessExits(e)) && !ExitsIdle(w, ProcessExits(e))
    requires !EmptyRequest(r)
    ensures var moves := [ProcessExits(e), Calls(Unblock), Calls(Send(r, false))];
            Contracted(w, moves) && InFlight(Play(w, moves)) == 2
  {
    NoReservation(w.reserved);
    var exited := Moved(w, ProcessExits(e));
    var unblocked := Moved(exited, Calls(Unblock));
    ExitFrees(w, e);
    UnblockFrees(exited);
    SendReserves(unblocked, r);
    OneMore(unblocked, Calls(Send(r, false)), []);
    OneMore(exited, Calls(Unblock), [Calls(Send(r, false))] + []);
    OneMore(w, ProcessExits(e), [Calls(Unblock)] + ([Calls(Send(r, false))] + []));
    assert [ProcessExits(e)] + ([Calls(Unblock)] + ([Calls(Send(r, false))] + []))
        == [ProcessExits(e), Calls(Unblock), Calls(Send(r, false))];
  }

  predicate Idle(s: State) {
    Open(s) && !s.active && !s.dispatching
  }

  lemma ExitFrees(w: World, e: Event)
    requires Open(w.m.s) && e.typ == ProcessExited
    ensures var w' := Moved(w, ProcessExits(e));
            Idle(w'.m.s) && w'.reserved == w.reserved && w'.running == {}
  {
  }

  lemma UnblockFrees(w: World)
    requires Idle(w.m.s)
    ensures var w' := Moved(w, Calls(Unblock));
            Idle(w'.m.s) && !w'.m.s.blocked && w'.reserved == w.reserved && w'.running == w.running
  {
  }

  lemma SendReserves(w: World, r: Request)
    requires Idle(w.m.s) && !w.m.s.blocked && !EmptyRequest(r)
    ensures var w' := Moved(w, Calls(Send(r, false)));
            w'.reserved == w.reserved + multiset{false} && w'.running == w.running
  {
  }

  lemma OneMore(w: World, move: Move, rest: seq<Move>)
    ensures Play(w, [move] + rest) == Play(Moved(w, move), rest)
    ensures Contracted(w, [move] + rest) <==> Contract(w, move) && Contracted(Moved(w, move), rest)
  {
    assert ([move] + rest)[1..] == rest;
  }
}
