/**
 The delta coalescer (runtime/coalesce.go): rapid assistant deltas become periodic cumulative
 snapshots. The timer may fire at any moment; events are logged in the order of the lock.
 */
module Coalesce {
  import opened Outcomes
  import opened Text
  import opened Host

  predicate AssistantText(e: Event) {
    (e.typ == Message || e.typ == Thinking) && e.role != "user"
  }

  predicate IsDelta(e: Event) {
    AssistantText(e) && e.data.delta != ""
  }

  predicate IsSnapshot(e: Event) {
    AssistantText(e) && e.data.delta == ""
  }

  function StreamSourceID(sessionID: string, turnID: string, index: nat): string {
    sessionID + ":turn:" + (if turnID == "" then "-" else turnID) + ":msg" + ":" + Decimal(index)
  }

  function StreamData(data: EventData): EventData {
    NO_DATA.(streaming := true, providerID := data.providerID)
  }

  /** Source IDs never repeat across the streams of a session. */
  lemma SourceIDsAreFresh(s: string, t: string, i: nat, s': string, t': string, j: nat)
    requires i != j
    ensures StreamSourceID(s, t, i) != StreamSourceID(s', t', j)
  {
    if StreamSourceID(s, t, i) == StreamSourceID(s', t', j) {
      NumberedIDsAreInjective(s + ":turn:" + (if t == "" then "-" else t) + ":msg", i,
                              s' + ":turn:" + (if t' == "" then "-" else t') + ":msg", j);
    }
  }

  // ---- The coalescer as a value ----

  /** What left the coalescer: an event passed through, a streaming snapshot, or a final one. */
  datatype Emission =
    | Passed(event: Event)
    | Streamed(stream: nat, event: Event)
    | Finished(stream: nat, event: Event)

  datatype State = State(turnID: string, streamType: EventType, message: nat, pending: Option<Event>,
                         flushed: nat, closed: bool)

  const IDLE := State("", Unknown(""), 0, None, 0, false)

  datatype Step = Handle(event: Event) | TimerFires | Close

  function Cleared(s: State): State {
    s.(pending := None, flushed := 0, turnID := "", streamType := Unknown(""))
  }

  function Snapshot(p: Event): Event {
    p.(data := StreamData(p.data))
  }

  /** The snapshot owed to the readers, if the pending text has grown since the last one. */
  function Flush(s: State): seq<Emission> {
    if s.pending == None || ByteLen(s.pending.value.message) == s.flushed then []
    else [Streamed(s.message, Snapshot(s.pending.value))]
  }

  function Flushed(s: State): State {
    if s.pending == None then s else s.(flushed := ByteLen(s.pending.value.message))
  }

  predicate Continues(s: State, e: Event) {
    s.pending.Some? && s.turnID == e.turnID && s.streamType == e.typ
  }

  /** The first event of stream n, as the coalescer holds it. */
  function Opening(e: Event, n: nat): Event {
    e.(sourceEventID := StreamSourceID(e.sessionID, e.turnID, n), data := StreamData(e.data))
  }

  /** The snapshot that ends a stream: it never loses text that was already streamed. */
  function Final(p: Event, e: Event): Event {
    e.(message := if ByteLen(e.message) < ByteLen(p.message) then p.message else e.message,
       seqNo := p.seqNo, sourceEventID := p.sourceEventID)
  }

  function Apply(s: State, step: Step): (State, seq<Emission>) {
    if s.closed then (s, [])
    else match step
      case TimerFires => (Flushed(s), Flush(s))
      case Close => (Cleared(s).(closed := true), Flush(s))
      case Handle(e) =>
        if IsDelta(e) then
          if !Continues(s, e) then
            var started := s.(message := s.message + 1, turnID := e.turnID, streamType := e.typ,
                             pending := Some(Opening(e, s.message + 1)), flushed := 0);
            (Flushed(started), Flush(s) + Flush(started))
          else
            (s.(pending := Some(s.pending.value.(message := s.pending.value.message + e.message))), [])
        else if IsSnapshot(e) && Continues(s, e) then
          (Cleared(s), [Finished(s.message, Final(s.pending.value, e))])
        else
          (Cleared(s), Flush(s) + [Passed(e)])
  }

  function Run(s: State, steps: seq<Step>): (State, seq<Emission>)
    decreases |steps|
  {
    if steps == [] then (s, [])
    else
      var (s1, out) := Apply(s, steps[0]);
      var (s2, rest) := Run(s1, steps[1..]);
      (s2, out + rest)
  }

  // ---- The coalescer as the source has it ----

  class DeltaCoalescer {
    var turnID: string
    var streamType: EventType
    var message: nat
    var pending: Option<Event>
    var flushed: nat
    var timer: bool
    var closed: bool
    var log: seq<Emission>

    ghost function View(): State
      reads this
    {
      State(turnID, streamType, message, pending, flushed, closed)
    }

    /** No text is held back without a timer that will show it. */
    ghost predicate Armed()
      reads this
    {
      Flush(View()) != [] && !closed ==> timer
    }

    constructor ()
      ensures View() == IDLE && log == [] && !timer && Armed()
    {
      turnID, streamType, message, pending, flushed := "", Unknown(""), 0, None, 0;
      timer, closed, log := false, false, [];
    }

    method HandleEvent(event: Event)
      requires Armed()
      modifies this
      ensures Armed()
      ensures View() == Apply(old(View()), Handle(event)).0
      ensures log == old(log) + Apply(old(View()), Handle(event)).1
      // the timer is armed for text that is held back, and stopped with the stream
      ensures !old(closed) && pending == None ==> !timer
      ensures !old(closed) && IsDelta(event) && Continues(old(View()), event) ==> timer
    {
      if closed {
        return;
      }
      if IsDelta(event) {
        if pending == None || turnID != event.turnID || streamType != event.typ {
          OpenLocked(event);
        } else {
          pending := Some(pending.value.(message := pending.value.message + event.message));
          ScheduleLocked();
        }
      } else if pending.Some? && IsSnapshot(event) && event.turnID == turnID && event.typ == streamType {
        var final := event;
        if ByteLen(final.message) < ByteLen(pending.value.message) {
          final := final.(message := pending.value.message);
        }
        final := final.(seqNo := pending.value.seqNo, sourceEventID := pending.value.sourceEventID);
        var stream := message;
        ClearLocked();
        log := log + [Finished(stream, final)];
      } else {
        FlushLocked();
        ClearLocked();
        log := log + [Passed(event)];
      }
    }

    /** The first delta of a stream: what the last stream owes goes first, and the new text at once. */
    method OpenLocked(event: Event)
      requires !closed && IsDelta(event) && !Continues(View(), event)
      modifies this
      ensures View() == Apply(old(View()), Handle(event)).0
      ensures log == old(log) + Apply(old(View()), Handle(event)).1
      ensures !timer && Flush(View()) == []
    {
      FlushLocked();
      ClearLocked();
      message := message + 1;
      var snapshot := event.(sourceEventID := StreamSourceID(event.sessionID, event.turnID, message),
                             data := StreamData(event.data));
      turnID := event.turnID;
      streamType := event.typ;
      pending := Some(snapshot);
      flushed := 0;
      FlushLocked();
    }

    method CloseCoalescer()
      requires Armed()
      modifies this
      ensures Armed()
      ensures View() == Apply(old(View()), Close).0 && closed
      ensures log == old(log) + Apply(old(View()), Close).1
    {
      if closed {
        return;
      }
      FlushLocked();
      closed := true;
      ClearLocked();
    }

    /** The timer's callback; a stopped timer's callback may still be waiting for the lock. */
    method TimerCallback()
      requires Armed()
      modifies this
      ensures Armed()
      ensures View() == Apply(old(View()), TimerFires).0 && !timer
      ensures log == old(log) + Apply(old(View()), TimerFires).1
    {
      timer := false;
      if !closed {
        FlushLocked();
      }
    }

    method ScheduleLocked()
      modifies `timer
      ensures timer
    {
      if timer {
        return;
      }
      timer := true;
    }

    method FlushLocked()
      modifies `flushed, `log
      ensures View() == Flushed(old(View())) && log == old(log) + Flush(old(View()))
    {
      if pending == None || ByteLen(pending.value.message) == flushed {
        return;
      }
      var snapshot := pending.value.(data := StreamData(pending.value.data));
      flushed := ByteLen(snapshot.message);
      log := log + [Streamed(message, snapshot)];
    }

    method ClearLocked()
      modifies `pending, `flushed, `turnID, `streamType, `timer
      ensures View() == Cleared(old(View())) && !timer
    {
      pending := None;
      flushed := 0;
      turnID := "";
      streamType := Unknown("");
      timer := false;
    }
  }

  // ---- The timer-free reference ----

  /** How many leading events of es are deltas of e's stream. */
  function StreamLength(e: Event, es: seq<Event>): (n: nat)
    ensures n <= |es|
  {
    if es != [] && IsDelta(es[0]) && es[0].turnID == e.turnID && es[0].typ == e.typ
    then 1 + StreamLength(e, es[1..]) else 0
  }

  function TextOf(es: seq<Event>): string {
    if es == [] then "" else es[0].message + TextOf(es[1..])
  }

  /** Whether e is the snapshot that ends the stream opened by first. */
  predicate Ends(first: Event, e: Event) {
    IsSnapshot(e) && e.turnID == first.turnID && e.typ == first.typ
  }

  /**
   What the events mean without any timer: every maximal run of deltas of one turn and kind is
   one stream, with the text of all its deltas; a matching snapshot behind it ends it, and
   otherwise its text stands if there is any. Other events pass through. n streams came before.
   */
  function Reference(es: seq<Event>, n: nat): seq<Emission>
    decreases |es|
  {
    if es == [] then []
    else if !IsDelta(es[0]) then [Passed(es[0])] + Reference(es[1..], n)
    else
      var k := StreamLength(es[0], es);
      var whole := Opening(es[0], n + 1).(message := TextOf(es[..k]));
      if k < |es| && Ends(es[0], es[k])
      then [Finished(n + 1, Final(whole, es[k]))] + Reference(es[k + 1..], n + 1)
      else (if whole.message == "" then [] else [Streamed(n + 1, whole)]) + Reference(es[k..], n + 1)
  }

  /** The events handled in a run. */
  function Inputs(steps: seq<Step>): seq<Event> {
    if steps == [] then []
    else (match steps[0] case Handle(e) => [e] case _ => []) + Inputs(steps[1..])
  }

  predicate Superseded(a: Emission, b: Emission) {
    a.Streamed? && !b.Passed? && a.stream == b.stream
  }

  /** Streaming snapshots give way to the next emission of their stream. */
  function Settle(out: seq<Emission>): seq<Emission> {
    if |out| <= 1 then out
    else if Superseded(out[0], out[1]) then Settle(out[1..])
    else [out[0]] + Settle(out[1..])
  }
}
