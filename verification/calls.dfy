/** The JSON-RPC call table (transport/process.go): concurrent calls, responses, cancels and closes. */
module Calls {
  import opened Outcomes
  import opened Text

  /** The ID of a message as the peer wrote it. */
  datatype RawID = NoID | TextID(text: string) | NumberID(digits: string) | OtherID(raw: string)

  function IDString(raw: RawID): string {
    match raw
    case NoID => ""
    case TextID(text) => TrimSpace(text)
    case NumberID(digits) => digits
    case OtherID(raw) => TrimSpace(raw)
  }

  /** What a response channel carries: an answer with the ID it came under, or the end of the process. */
  datatype Reply = Answer(id: string, body: string) | Exited

  /** Where the goroutine of a call is. `Checked` has seen the process alive; `Waiting` has written. */
  datatype Phase =
    | Allocated | Registered | Checked | Waiting
    | Returned(reply: Option<Reply>)

  /**
   `sent` holds everything ever sent into the channel of each registered call; `carried` the response
   the read loop has taken a channel for and not yet sent; `answers` every response read so far.
   */
  datatype Table = Table(nextID: nat, pending: set<string>, sent: map<string, seq<Reply>>, calls: map<string, Phase>,
                         done: bool, drained: bool, carried: Option<Reply>, answers: seq<Reply>)

  const EMPTY := Table(0, {}, map[], map[], false, false, None, [])

  const CHANNEL_CAPACITY := 1

  datatype Step =
    | Allocate
    | MarshalFails(id: string)
    | Register(id: string)
    | SeeDone(id: string)
    | SeeOpen(id: string)
    | WriteFails(id: string)
    | WriteReturns(id: string)
    | Cancel(id: string)
    | ReturnOnDone(id: string)
    | Receive(id: string)
    | TakeResponse(raw: RawID, body: string)
    | SendResponse
    | CloseDone
    | Drain

  predicate InPhase(t: Table, id: string, phase: Phase) {
    id in t.calls && t.calls[id] == phase
  }

  /** Which steps the code can take. */
  predicate Enabled(t: Table, step: Step) {
    match step
    case Allocate => true
    case MarshalFails(id) => InPhase(t, id, Allocated)
    case Register(id) => InPhase(t, id, Allocated)
    case SeeDone(id) => InPhase(t, id, Registered) && t.done
    case SeeOpen(id) => InPhase(t, id, Registered) && !t.done
    case WriteFails(id) => InPhase(t, id, Checked)
    case WriteReturns(id) => InPhase(t, id, Checked)
    case Cancel(id) => InPhase(t, id, Waiting)
    case ReturnOnDone(id) => InPhase(t, id, Waiting) && t.done
    case Receive(id) => InPhase(t, id, Waiting) && id in t.sent && t.sent[id] != []
    case TakeResponse(_, _) => t.carried == None
    case SendResponse => t.carried.Some?
    case CloseDone => true
    case Drain => t.done
  }

  function Returns(t: Table, id: string, reply: Option<Reply>): Table {
    t.(calls := t.calls[id := Returned(reply)])
  }

  function Removed(t: Table, id: string): Table {
    t.(pending := t.pending - {id})
  }

  function Delivered(t: Table, id: string, reply: Reply): Table {
    if id in t.sent then t.(sent := t.sent[id := t.sent[id] + [reply]]) else t
  }

  /** closePending: every pending channel receives the end of the process, and none stays pending. */
  function Emptied(t: Table): Table {
    t.(pending := {}, drained := true,
       sent := map id | id in t.sent :: if id in t.pending then t.sent[id] + [Exited] else t.sent[id])
  }

  function Apply(t: Table, step: Step): Table {
    match step
    case Allocate => t.(nextID := t.nextID + 1, calls := t.calls[Decimal(t.nextID + 1) := Allocated])
    case MarshalFails(id) => Returns(t, id, None)
    case Register(id) => t.(pending := t.pending + {id}, sent := t.sent[id := []], calls := t.calls[id := Registered])
    case SeeDone(id) => Returns(Removed(t, id), id, None)
    case SeeOpen(id) => t.(calls := t.calls[id := Checked])
    case WriteFails(id) => Returns(Removed(t, id), id, None)
    case WriteReturns(id) => t.(calls := t.calls[id := Waiting])
    case Cancel(id) => Returns(Removed(t, id), id, None)
    case ReturnOnDone(id) => Returns(t, id, None)
    case Receive(id) => if id in t.sent && t.sent[id] != [] then Returns(t, id, Some(t.sent[id][0])) else t
    case TakeResponse(raw, body) =>
      var answer := Answer(IDString(raw), body);
      var t1 := t.(answers := t.answers + [answer]);
      if IDString(raw) in t.pending then Removed(t1, IDString(raw)).(carried := Some(answer)) else t1
    case SendResponse =>
      if t.carried.Some? && t.carried.value.Answer?
      then Delivered(t, t.carried.value.id, t.carried.value).(carried := None) else t
    case CloseDone => t.(done := true)
    case Drain => Emptied(t)
  }

  function Run(t: Table, steps: seq<Step>): Table
    decreases |steps|
  {
    if steps == [] then t else Run(Apply(t, steps[0]), steps[1..])
  }

  predicate Possible(t: Table, steps: seq<Step>)
    decreases |steps|
  {
    steps == [] || (Enabled(t, steps[0]) && Possible(Apply(t, steps[0]), steps[1..]))
  }

  // ---- What holds in every interleaving ----

  predicate IsCarried(t: Table, id: string) {
    t.carried.Some? && t.carried.value.Answer? && t.carried.value.id == id
  }

  /** Every ID was handed out by the counter, once. */
  ghost predicate Numbered(t: Table) {
    forall id :: id in t.calls ==> exists n :: 1 <= n <= t.nextID && id == Decimal(n)
  }

  predicate Unanswered(t: Table, id: string) {
    id in t.sent && t.sent[id] == []
  }

  predicate FitsCall(t: Table, id: string, reply: Reply) {
    reply.Answer? ==> reply.id == id && reply in t.answers
  }

  /** What holds of one call ID. */
  predicate CallInv(t: Table, id: string) {
    && (id in t.sent ==> id in t.calls && t.calls[id] != Allocated)
    && (id in t.calls && t.calls[id] in {Registered, Checked, Waiting} ==> id in t.sent)
    // a pending call has no reply and none under way
    && (id in t.pending ==> Unanswered(t, id) && !IsCarried(t, id))
    && (IsCarried(t, id) ==> Unanswered(t, id))
    // a call that has not returned is pending, or its reply is under way or there
    && (id in t.calls && t.calls[id] in {Registered, Checked, Waiting} ==>
          id in t.pending || IsCarried(t, id) || !Unanswered(t, id))
    // its channel carries at most one reply, and that one is meant for it
    && (id in t.sent ==> |t.sent[id]| <= CHANNEL_CAPACITY)
    && (id in t.sent && t.sent[id] != [] ==> FitsCall(t, id, t.sent[id][0]))
    && (id in t.calls && t.calls[id].Returned? && t.calls[id].reply.Some? ==>
          FitsCall(t, id, t.calls[id].reply.value) && id in t.sent && t.sent[id] == [t.calls[id].reply.value])
    // a call that has returned is out of the table, unless the process is done
    && (id in t.calls && t.calls[id].Returned? && !t.done ==> id !in t.pending)
    // once drained, only a call that is about to see the closed process is pending
    && (t.drained && id in t.pending ==> InPhase(t, id, Registered))
  }

  ghost predicate Inv(t: Table) {
    && Numbered(t)
    && (t.drained ==> t.done)
    && (t.carried.Some? ==> t.carried.value.Answer? && t.carried.value in t.answers)
    && forall id :: CallInv(t, id)
  }

  lemma NewIDIsUnused(t: Table)
    requires Numbered(t)
    ensures Decimal(t.nextID + 1) !in t.calls
    ensures Numbered(Apply(t, Allocate))
  {
    var added := Decimal(t.nextID + 1);
    if added in t.calls {
      var n :| 1 <= n <= t.nextID && added == Decimal(n);
      DecimalRoundTrip(n);
      DecimalRoundTrip(t.nextID + 1);
    }
    forall id | id in Apply(t, Allocate).calls
      ensures exists n :: 1 <= n <= t.nextID + 1 && id == Decimal(n)
    {
      if id in t.calls {
        var n :| 1 <= n <= t.nextID && id == Decimal(n);
      } else {
        assert id == Decimal(t.nextID + 1);
      }
    }
  }

  lemma SameCallsSameNumbers(t: Table, t': Table)
    requires Numbered(t) && t'.nextID == t.nextID && forall id :: id in t'.calls ==> id in t.calls
    ensures Numbered(t')
  {
  }

  lemma AllocateKeepsInv(t: Table)
    requires Inv(t)
    ensures Inv(Apply(t, Allocate))
  {
    NewIDIsUnused(t);
    forall id ensures CallInv(Apply(t, Allocate), id) {
      assert CallInv(t, id);
    }
  }

  lemma RegisterKeepsInv(t: Table, id: string)
    requires Inv(t) && InPhase(t, id, Allocated)
    ensures Inv(Apply(t, Register(id)))
  {
    SameCallsSameNumbers(t, Apply(t, Register(id)));
    forall other ensures CallInv(Apply(t, Register(id)), other) {
      assert CallInv(t, other);
    }
  }

  /** Steps of one call's goroutine that leave the table's channels alone. */
  predicate Private(step: Step) {
    step.MarshalFails? || step.SeeDone? || step.SeeOpen? || step.WriteFails? || step.WriteReturns? || step.Cancel?
    || step.ReturnOnDone? || step.Receive?
  }

  lemma PrivateStepKeepsInv(t: Table, step: Step)
    requires Inv(t) && Enabled(t, step) && Private(step)
    ensures Inv(Apply(t, step))
  {
    var t' := Apply(t, step);
    assert step.id in t.calls;
    SameCallsSameNumbers(t, t');
    assert CallInv(t, step.id);
    forall id ensures CallInv(t', id) {
      assert CallInv(t, id);
    }
  }

  lemma TakeKeepsInv(t: Table, raw: RawID, body: string)
    requires Inv(t) && t.carried == None
    ensures Inv(Apply(t, TakeResponse(raw, body)))
  {
    var t' := Apply(t, TakeResponse(raw, body));
    SameCallsSameNumbers(t, t');
    forall id ensures CallInv(t', id) {
      assert CallInv(t, id);
    }
  }

  lemma SendKeepsInv(t: Table)
    requires Inv(t) && t.carried.Some?
    ensures Inv(Apply(t, SendResponse))
  {
    var t' := Apply(t, SendResponse);
    assert CallInv(t, t.carried.value.id);
    SameCallsSameNumbers(t, t');
    forall id ensures CallInv(t', id) {
      assert CallInv(t, id);
    }
  }

  lemma CloseKeepsInv(t: Table, step: Step)
    requires Inv(t) && Enabled(t, step) && (step == CloseDone || step == Drain)
    ensures Inv(Apply(t, step))
  {
    var t' := Apply(t, step);
    SameCallsSameNumbers(t, t');
    forall id ensures CallInv(t', id) {
      assert CallInv(t, id);
    }
  }

  lemma StepKeepsInv(t: Table, step: Step)
    requires Inv(t) && Enabled(t, step)
    ensures Inv(Apply(t, step))
  {
    match step
    case Allocate => AllocateKeepsInv(t);
    case Register(id) => RegisterKeepsInv(t, id);
    case TakeResponse(raw, body) => TakeKeepsInv(t, raw, body);
    case SendResponse => SendKeepsInv(t);
    case CloseDone => CloseKeepsInv(t, step);
    case Drain => CloseKeepsInv(t, step);
    case _ => PrivateStepKeepsInv(t, step);
  }

  lemma {:induction false} RunKeepsInv(t: Table, steps: seq<Step>)
    requires Inv(t) && Possible(t, steps)
    ensures Inv(Run(t, steps))
    decreases |steps|
  {
    if steps != [] {
      StepKeepsInv(t, steps[0]);
      RunKeepsInv(Apply(t, steps[0]), steps[1..]);
    }
  }

  lemma ReachableInv(steps: seq<Step>, id: string)
    requires Possible(EMPTY, steps)
    ensures Inv(Run(EMPTY, steps)) && CallInv(Run(EMPTY, steps), id)
  {
    RunKeepsInv(EMPTY, steps);
    assert CallInv(Run(EMPTY, steps), id);
  }

  /**
   Call routing: in every interleaving each new call ID is unused, each channel gets at most one
   message, so that no send blocks, a call that has returned leaves the table, and it returns an answer
   only if the peer sent that answer under the call's own ID.
   */
  lemma AnswersReachTheirCall(steps: seq<Step>, id: string)
    requires Possible(EMPTY, steps)
    ensures var t := Run(EMPTY, steps);
            && Decimal(t.nextID + 1) !in t.calls
            && (id in t.sent ==> |t.sent[id]| <= CHANNEL_CAPACITY)
            && (t.carried.Some? ==> t.carried.value.Answer? && Unanswered(t, t.carried.value.id))
            && (id in t.pending ==> Unanswered(t, id))
            && (id in t.calls && t.calls[id].Returned? && !t.done ==> id !in t.pending)
            && (id in t.calls && t.calls[id].Returned? && t.calls[id].reply.Some? && t.calls[id].reply.value.Answer? ==>
                  t.calls[id].reply.value.id == id && t.calls[id].reply.value in t.answers)
  {
    var t := Run(EMPTY, steps);
    ReachableInv(steps, id);
    NewIDIsUnused(t);
    if t.carried.Some? {
      assert CallInv(t, t.carried.value.id);
    }
  }

  /**
   Close wakes every call: once the process is closed and drained, a waiting call has its reply, or
   the read loop is about to send it, and it can return in any case; and the only calls left in the
   table are those that have yet to look whether the process is closed.
   */
  lemma CloseWakesEveryCall(steps: seq<Step>, id: string)
    requires Possible(EMPTY, steps) && Run(EMPTY, steps).drained
    ensures var t := Run(EMPTY, steps);
            && (InPhase(t, id, Waiting) ==>
                  Enabled(t, ReturnOnDone(id)) && (Enabled(t, Receive(id)) || IsCarried(t, id)))
            && (InPhase(t, id, Registered) ==> Enabled(t, SeeDone(id)) && !Enabled(t, SeeOpen(id)))
            && (id in t.pending ==> InPhase(t, id, Registered))
  {
    ReachableInv(steps, id);
  }

  // ---- Responses are delivered ----

  /** A peer that echoes a call's ID as text or as a number names the call. */
  lemma EchoedIDsNameTheCall(n: nat)
    ensures IDString(TextID(Decimal(n))) == Decimal(n) && IDString(NumberID(Decimal(n))) == Decimal(n)
  {
    var d := Decimal(n);
    assert !IsSpace(d[0]) && !IsSpace(d[|d| - 1]);
  }

  /** The response to a pending call is on its way to it, or there, and the call returns nothing else. */
  predicate Routed(t: Table, id: string, answer: Reply) {
    && id in t.calls && t.calls[id] != Allocated && id !in t.pending && id in t.sent
    && (t.sent[id] == [answer] || (t.sent[id] == [] && t.carried == Some(answer)))
    && (t.sent[id] == [answer] ==> !IsCarried(t, id))
    && (t.calls[id].Returned? ==> t.calls[id].reply == None || t.calls[id].reply == Some(answer))
  }

  lemma RoutedStays(t: Table, step: Step, id: string, answer: Reply)
    requires Inv(t) && Enabled(t, step) && Routed(t, id, answer) && answer.Answer? && answer.id == id
    ensures Routed(Apply(t, step), id, answer)
  {
    NewIDIsUnused(t);
    assert CallInv(t, id);
  }

  lemma {:induction false} RoutedThroughout(t: Table, steps: seq<Step>, id: string, answer: Reply)
    requires Inv(t) && Possible(t, steps) && Routed(t, id, answer) && answer.Answer? && answer.id == id
    ensures Routed(Run(t, steps), id, answer)
    decreases |steps|
  {
    if steps != [] {
      RoutedStays(t, steps[0], id, answer);
      StepKeepsInv(t, steps[0]);
      RoutedThroughout(Apply(t, steps[0]), steps[1..], id, answer);
    }
  }

  /**
   Delivery: a response read under the ID of a pending call reaches that call in every interleaving. Once
   the read loop has sent it, a waiting call can receive exactly this body; and if the call returns a
   reply, it is this one.
   */
  lemma ResponsesAreDelivered(before: seq<Step>, raw: RawID, body: string, after: seq<Step>)
    requires Possible(EMPTY, before) && Run(EMPTY, before).carried == None
    requires IDString(raw) in Run(EMPTY, before).pending
    requires Possible(Apply(Run(EMPTY, before), TakeResponse(raw, body)), after)
    ensures var id, answer := IDString(raw), Answer(IDString(raw), body);
            var t := Run(Apply(Run(EMPTY, before), TakeResponse(raw, body)), after);
            && id in t.calls && id in t.sent
            && (t.sent[id] == [answer] || t.carried == Some(answer))
            && (t.carried == Some(answer) && t.sent[id] == [] ==>
                  Enabled(t, SendResponse) && Apply(t, SendResponse).sent[id] == [answer])
            && (t.calls[id] == Waiting && t.sent[id] == [answer] ==>
                  Enabled(t, Receive(id)) && Apply(t, Receive(id)).calls[id] == Returned(Some(answer)))
            && (t.calls[id].Returned? && t.calls[id].reply.Some? ==> t.calls[id].reply == Some(answer))
  {
    var id, answer := IDString(raw), Answer(IDString(raw), body);
    var t := Run(EMPTY, before);
    var taken := Apply(t, TakeResponse(raw, body));
    ReachableInv(before, id);
    PendingCallsAreOpen(t, id);
    TakeKeepsInv(t, raw, body);
    assert Routed(taken, id, answer);
    RoutedThroughout(taken, after, id, answer);
  }

  /** A pending call is registered, and it returns without a reply if it has returned at all. */
  lemma PendingCallsAreOpen(t: Table, id: string)
    requires Inv(t) && id in t.pending
    ensures id in t.calls && t.calls[id] != Allocated && id in t.sent && t.sent[id] == []
    ensures t.calls[id].Returned? ==> t.calls[id].reply == None
  {
    assert CallInv(t, id);
  }

  /** A response under any other ID is dropped. */
  lemma StrayResponsesAreDropped(t: Table, raw: RawID, body: string)
    requires IDString(raw) !in t.pending
    ensures Apply(t, TakeResponse(raw, body)) == t.(answers := t.answers + [Answer(IDString(raw), body)])
  {
  }

  // ---- Every call returns ----

  /** How many steps of its own a call has left once the process is done. */
  function StepsLeft(phase: Phase): nat {
    match phase
    case Allocated | Checked => 2
    case Registered | Waiting => 1
    case Returned(_) => 0
  }

  predicate OwnStep(step: Step, id: string) {
    (Private(step) || step.Register?) && step.id == id
  }

  function OwnSteps(steps: seq<Step>, id: string): nat {
    if steps == [] then 0 else (if OwnStep(steps[0], id) then 1 else 0) + OwnSteps(steps[1..], id)
  }

  /** A call that has not returned can always take a step of its own, and each one brings it closer. */
  lemma OwnStepsAdvance(t: Table, step: Step, id: string)
    requires Inv(t) && t.done && Enabled(t, step) && id in t.calls
    ensures var t' := Apply(t, step);
            && id in t'.calls && t'.done
            && StepsLeft(t'.calls[id]) + (if OwnStep(step, id) then 1 else 0) <= StepsLeft(t.calls[id])
  {
    NewIDIsUnused(t);
  }

  /** The step that a call which has not returned can take. */
  function NextStep(phase: Phase, id: string): Step
    requires !phase.Returned?
  {
    match phase
    case Allocated => Register(id)
    case Registered => SeeDone(id)
    case Checked => WriteReturns(id)
    case Waiting => ReturnOnDone(id)
  }

  /**
   No call waits forever once the process is done: whatever else happens, it takes at most as many steps
   of its own as it has left, and until it has returned it can take one.
   */
  lemma {:induction false} CallsReturn(t: Table, steps: seq<Step>, id: string)
    requires Inv(t) && t.done && Possible(t, steps) && id in t.calls
    ensures var t' := Run(t, steps);
            && id in t'.calls
            && OwnSteps(steps, id) + StepsLeft(t'.calls[id]) <= StepsLeft(t.calls[id]) <= 2
            && (!t'.calls[id].Returned? ==>
                  Enabled(t', NextStep(t'.calls[id], id)) && OwnStep(NextStep(t'.calls[id], id), id))
    decreases |steps|
  {
    if steps != [] {
      OwnStepsAdvance(t, steps[0], id);
      StepKeepsInv(t, steps[0]);
      CallsReturn(Apply(t, steps[0]), steps[1..], id);
    }
  }

  /** In every interleaving, from the moment the process is done. */
  lemma ClosedCallsReturn(before: seq<Step>, after: seq<Step>, id: string)
    requires Possible(EMPTY, before) && Run(EMPTY, before).done && id in Run(EMPTY, before).calls
    requires Possible(Run(EMPTY, before), after)
    ensures var t, t' := Run(EMPTY, before), Run(Run(EMPTY, before), after);
            && id in t'.calls
            && OwnSteps(after, id) <= StepsLeft(t.calls[id]) <= 2
            && (OwnSteps(after, id) == StepsLeft(t.calls[id]) ==> t'.calls[id].Returned?)
            && (!t'.calls[id].Returned? ==>
                  Enabled(t', NextStep(t'.calls[id], id)) && OwnStep(NextStep(t'.calls[id], id), id))
  {
    RunKeepsInv(EMPTY, before);
    CallsReturn(Run(EMPTY, before), after, id);
  }

  /** Every pending call has its channel. */
  lemma PendingCallsHaveChannels(t: Table)
    requires Inv(t)
    ensures t.pending <= t.sent.Keys
  {
    forall id | id in t.pending ensures id in t.sent {
      assert CallInv(t, id);
    }
  }

  lemma SentByDrain(t: Table, sent: map<string, seq<Reply>>)
    requires sent.Keys == t.sent.Keys
    requires forall id :: id in sent ==> sent[id] == if id in t.pending then t.sent[id] + [Exited] else t.sent[id]
    ensures sent == Emptied(t).sent
  {
  }

  // ---- The table as the source has it ----

  class Process {
    var nextID: nat
    var pending: set<string>
    var sent: map<string, seq<Reply>>
    var done: bool
    // where the goroutines are, and what the peer has answered
    ghost var calls: map<string, Phase>
    ghost var drained: bool
    ghost var carried: Option<Reply>
    ghost var answers: seq<Reply>

    ghost function View(): Table
      reads this
    {
      Table(nextID, pending, sent, calls, done, drained, carried, answers)
    }

    constructor ()
      ensures View() == EMPTY
    {
      nextID, pending, sent, done := 0, {}, map[], false;
      calls, drained, carried, answers := map[], false, None, [];
    }

    method NextID() returns (id: string)
      modifies this
      ensures View() == Apply(old(View()), Allocate) && id == Decimal(nextID)
    {
      nextID := nextID + 1;
      id := Decimal(nextID);
      calls := calls[id := Allocated];
    }

    method RegisterCall(id: string)
      modifies this
      ensures View() == Apply(old(View()), Register(id))
    {
      pending := pending + {id};
      sent := sent[id := []];
      calls := calls[id := Registered];
    }

    /** The channel of a pending call is handed to whoever removes it. */
    method RemovePending(id: string) returns (found: bool)
      modifies `pending
      ensures View() == Removed(old(View()), id) && (found <==> id in old(pending))
    {
      found := id in pending;
      pending := pending - {id};
    }

    /** The response branch of the read loop. */
    method RouteResponse(raw: RawID, body: string) returns (routed: bool)
      requires pending <= sent.Keys && carried == None
      modifies this
      ensures var taken := Apply(old(View()), TakeResponse(raw, body));
              View() == if routed then Apply(taken, SendResponse) else taken
      ensures routed <==> IDString(raw) in old(pending)
    {
      var id := IDString(raw);
      answers := answers + [Answer(id, body)];
      routed := RemovePending(id);
      if routed {
        sent := sent[id := sent[id] + [Answer(id, body)]];
      } else {
        assert pending == old(pending);
      }
    }

    /** closePending: done is closed first, then every pending call is told. */
    method ClosePending()
      requires pending <= sent.Keys
      modifies this
      ensures View() == Apply(Apply(old(View()), CloseDone), Drain)
    {
      done := true;
      while pending != {}
        invariant done && pending <= old(pending)
        invariant calls == old(calls) && carried == old(carried) && answers == old(answers)
                  && nextID == old(nextID) && drained == old(drained)
        invariant old(pending) <= sent.Keys && sent.Keys == old(sent).Keys
        invariant forall id :: id in sent ==>
                    sent[id] == if id in old(pending) && id !in pending then old(sent)[id] + [Exited]
                                else old(sent)[id]
        decreases pending
      {
        var id :| id in pending;
        sent := sent[id := sent[id] + [Exited]];
        pending := pending - {id};
      }
      drained := true;
      SentByDrain(old(View()), sent);
    }
  }
}
