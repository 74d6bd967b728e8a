/** The shape of the coalescer's output: streams are contiguous and only grow. */
module Streams {
  import opened Outcomes
  import opened Text
  import opened Host
  import opened Coalesce
  import opened Schedule

  predicate SameStream(a: Emission, b: Emission) {
    !a.Passed? && !b.Passed? && a.stream == b.stream
  }

  /** How a later emission of a stream relates to an earlier one. */
  predicate Grows(a: Emission, b: Emission) {
    && a.Streamed? && a.event.sourceEventID == b.event.sourceEventID
    && a.event.typ == b.event.typ && a.event.turnID == b.event.turnID && a.event.seqNo == b.event.seqNo
    && (b.Streamed? ==> a.event.message < b.event.message && a.event == b.event.(message := a.event.message))
    && ByteLen(a.event.message) <= ByteLen(b.event.message)
  }

  predicate Orderly(log: seq<Emission>) {
    && (forall i, j :: 0 <= i < j < |log| && SameStream(log[i], log[j]) ==> Grows(log[i], log[j]))
    && (forall i, k, j :: 0 <= i < k < j < |log| && SameStream(log[i], log[j]) ==> SameStream(log[i], log[k]))
  }

  /** How the state relates to what has been emitted so far. */
  predicate Linked(s: State, log: seq<Emission>) {
    && (forall i :: 0 <= i < |log| && !log[i].Passed? ==> log[i].stream <= s.message)
    && (s.pending.Some? ==>
          var p := s.pending.value;
          if s.flushed == 0 then forall i :: 0 <= i < |log| && !log[i].Passed? ==> log[i].stream < s.message
          else
            && log != [] && log[|log| - 1].Streamed? && log[|log| - 1].stream == s.message
            && log[|log| - 1].event.message <= p.message
            && ByteLen(log[|log| - 1].event.message) == s.flushed
            && log[|log| - 1].event == p.(message := log[|log| - 1].event.message))
  }

  lemma AppendElsewhere(log: seq<Emission>, x: Emission)
    requires Orderly(log)
    requires x.Passed? || forall i :: 0 <= i < |log| && !log[i].Passed? ==> log[i].stream != x.stream
    ensures Orderly(log + [x])
  {
  }

  lemma AppendToStream(log: seq<Emission>, x: Emission)
    requires Orderly(log) && log != [] && !x.Passed?
    requires SameStream(log[|log| - 1], x) && Grows(log[|log| - 1], x)
    ensures Orderly(log + [x])
  {
    var last := |log| - 1;
    forall i | 0 <= i < last && SameStream(log[i], x)
      ensures Grows(log[i], x)
    {
      assert SameStream(log[i], log[last]);
      assert Grows(log[i], log[last]);
      assert x.Streamed? ==> log[i].event.message < x.event.message;
      assert x.Streamed? ==> log[i].event == x.event.(message := log[i].event.message);
    }
  }

  /** Sending out the pending text keeps the order. */
  lemma FlushIsOrderly(s: State, log: seq<Emission>)
    requires Inv(s) && Orderly(log) && Linked(s, log)
    ensures Orderly(log + Flush(s)) && Linked(Flushed(s), log + Flush(s))
  {
    if Flush(s) == [] {
      assert log + Flush(s) == log;
    } else {
      var p := s.pending.value;
      var x := Streamed(s.message, Snapshot(p));
      EmptyByByteLen(p.message);
      if s.flushed == 0 {
        AppendElsewhere(log, x);
      } else {
        var q := log[|log| - 1].event;
        assert q.message != p.message;
        AppendToStream(log, x);
      }
    }
  }

  lemma ApplyIsOrderly(s: State, log: seq<Emission>, step: Step)
    requires Inv(s) && step != Close && Orderly(log) && Linked(s, log)
    ensures var (s1, out) := Apply(s, step); Orderly(log + out) && Linked(s1, log + out)
  {
    FlushIsOrderly(s, log);
    match step
    case TimerFires =>
    case Handle(e) =>
      if IsDelta(e) {
        if Continues(s, e) {
          ByteLenGrows(s.pending.value.message, e.message);
          assert log + [] == log;
        } else {
          OpeningIsOrderly(s, log, e);
        }
      } else if IsSnapshot(e) && Continues(s, e) {
        FinalOfStream(s.pending.value, e);
        FinishIsOrderly(s, log, Finished(s.message, Final(s.pending.value, e)));
      } else {
        PassingIsOrderly(s, log, e);
      }
  }

  /** A final snapshot keeps the identity and number of its stream, and loses no text. */
  lemma FinalOfStream(p: Event, e: Event)
    ensures var final := Final(p, e);
            && final.sourceEventID == p.sourceEventID && final.seqNo == p.seqNo
            && final.typ == e.typ && final.turnID == e.turnID && final.data == e.data
            && (final.message == e.message || final.message == p.message)
            && ByteLen(p.message) <= ByteLen(final.message) && ByteLen(e.message) <= ByteLen(final.message)
  {
  }

  lemma PassingIsOrderly(s: State, log: seq<Emission>, e: Event)
    requires Orderly(log + Flush(s)) && Linked(Flushed(s), log + Flush(s))
    ensures Orderly(log + (Flush(s) + [Passed(e)])) && Linked(Cleared(s), log + (Flush(s) + [Passed(e)]))
  {
    AppendElsewhere(log + Flush(s), Passed(e));
    assert (log + Flush(s)) + [Passed(e)] == log + (Flush(s) + [Passed(e)]);
  }

  lemma OpeningIsOrderly(s: State, log: seq<Emission>, e: Event)
    requires Inv(s) && Orderly(log + Flush(s)) && Linked(Flushed(s), log + Flush(s))
    requires IsDelta(e) && !Continues(s, e)
    ensures var (s1, out) := Apply(s, Handle(e)); Orderly(log + out) && Linked(s1, log + out)
  {
    ApplyKeepsInv(s, Handle(e));
    OpeningShows(s, e);
    var started := Apply(s, Handle(e)).0.(flushed := 0);
    FlushIsOrderly(started, log + Flush(s));
    assert (log + Flush(s)) + Flush(started) == log + (Flush(s) + Flush(started));
  }

  lemma FinishIsOrderly(s: State, log: seq<Emission>, x: Emission)
    requires Inv(s) && Orderly(log) && Linked(s, log) && s.pending.Some?
    requires x.Finished? && x.stream == s.message && x.event.sourceEventID == s.pending.value.sourceEventID
    requires x.event.typ == s.pending.value.typ && x.event.turnID == s.pending.value.turnID
    requires x.event.seqNo == s.pending.value.seqNo
    requires ByteLen(s.pending.value.message) <= ByteLen(x.event.message)
    ensures Orderly(log + [x]) && Linked(Cleared(s), log + [x])
  {
    if s.flushed == 0 {
      AppendElsewhere(log, x);
    } else {
      AppendToStream(log, x);
    }
  }

  lemma {:induction false} RunIsOrderly(s: State, log: seq<Emission>, steps: seq<Step>)
    requires Inv(s) && Orderly(log) && Linked(s, log)
    ensures Orderly(log + Run(s, steps).1)
    decreases |steps|
  {
    if steps == [] {
      assert log + [] == log;
    } else {
      var (s1, out) := Apply(s, steps[0]);
      var rest := Run(s1, steps[1..]).1;
      assert log + (out + rest) == (log + out) + rest;
      if steps[0] == Close {
        FlushIsOrderly(s, log);
        ClosedIsSilent(s1, steps[1..]);
        assert (log + out) + [] == log + out;
      } else {
        ApplyKeepsInv(s, steps[0]);
        ApplyIsOrderly(s, log, steps[0]);
        RunIsOrderly(s1, log + out, steps[1..]);
      }
    }
  }

  /**
   In every run the emissions of one stream are contiguous, share source ID and number, and every
   streaming snapshot is a proper prefix of the next; only the last can be a final snapshot, and it
   is never shorter.
   */
  lemma StreamsOnlyGrow(steps: seq<Step>)
    ensures Orderly(Run(IDLE, steps).1)
  {
    RunIsOrderly(IDLE, [], steps);
    assert [] + Run(IDLE, steps).1 == Run(IDLE, steps).1;
  }

  /** The source ID of a stream's snapshots is the numbered one, so other streams never carry it. */
  lemma {:induction false} StreamsCarryTheirID(s: State, steps: seq<Step>)
    requires Inv(s)
    ensures forall i :: 0 <= i < |Run(s, steps).1| && !Run(s, steps).1[i].Passed? ==>
              exists session, turn :: Run(s, steps).1[i].event.sourceEventID
                                      == StreamSourceID(session, turn, Run(s, steps).1[i].stream)
    decreases |steps|
  {
    if steps != [] {
      var (s1, out) := Apply(s, steps[0]);
      if steps[0] == Close {
        ClosedIsSilent(s1, steps[1..]);
      } else {
        ApplyKeepsInv(s, steps[0]);
        StreamsCarryTheirID(s1, steps[1..]);
      }
      forall i | 0 <= i < |out| && !out[i].Passed?
        ensures exists session, turn :: out[i].event.sourceEventID == StreamSourceID(session, turn, out[i].stream)
      {
        var p := if i < |Flush(s)| || out[i].Finished? then s.pending.value else s1.pending.value;
        assert out[i].event.sourceEventID == StreamSourceID(p.sessionID, p.turnID, out[i].stream);
      }
    }
  }

  lemma SourceIDsTellStreamsApart(steps: seq<Step>, i: nat, j: nat)
    requires i < |Run(IDLE, steps).1| && j < |Run(IDLE, steps).1|
    requires !Run(IDLE, steps).1[i].Passed? && !Run(IDLE, steps).1[j].Passed?
    ensures Run(IDLE, steps).1[i].event.sourceEventID == Run(IDLE, steps).1[j].event.sourceEventID
            <==> Run(IDLE, steps).1[i].stream == Run(IDLE, steps).1[j].stream
  {
    var out := Run(IDLE, steps).1;
    StreamsCarryTheirID(IDLE, steps);
    StreamsOnlyGrow(steps);
    var s, t :| out[i].event.sourceEventID == StreamSourceID(s, t, out[i].stream);
    var s', t' :| out[j].event.sourceEventID == StreamSourceID(s', t', out[j].stream);
    if out[i].stream != out[j].stream {
      SourceIDsAreFresh(s, t, out[i].stream, s', t', out[j].stream);
    } else if i < j {
      assert Grows(out[i], out[j]);
    } else if j < i {
      assert Grows(out[j], out[i]);
    }
  }

  // ---- What streams carry ----

  /** A delta of assistant text, in the terms of the event. */
  predicate Delta(e: Event) {
    (e.typ == Message || e.typ == Thinking) && e.role != "user" && e.data.delta != ""
  }

  /** The events of a run that are no delta leave as they came, unless they end a stream. */
  lemma {:induction false} PassedAsTheyCame(s: State, steps: seq<Step>)
    requires Inv(s) && NoClose(steps)
    ensures forall i :: 0 <= i < |Run(s, steps).1| && Run(s, steps).1[i].Passed? ==>
              Run(s, steps).1[i].event in Inputs(steps) && !Delta(Run(s, steps).1[i].event)
    decreases |steps|
  {
    if steps != [] {
      var (s1, out) := Apply(s, steps[0]);
      ApplyKeepsInv(s, steps[0]);
      PassedAsTheyCame(s1, steps[1..]);
      assert forall e :: e in Inputs(steps[1..]) ==> e in Inputs(steps);
      assert steps[0].Handle? ==> steps[0].event in Inputs(steps);
      assert Run(s, steps).1 == out + Run(s1, steps[1..]).1;
    }
  }

  /** A streaming snapshot is the first event of its stream but for source ID, data and text. */
  predicate Shows(x: Event, first: Event) {
    && Delta(first)
    && x == first.(message := x.message, sourceEventID := x.sourceEventID, data := x.data)
    && first.message <= x.message
    && x.data.streaming && x.data.delta == "" && x.data.providerID == first.data.providerID
    && x.data.todos == "null" && x.data.selected == "null"
  }

  /** The pending text belongs to a delta that was handled. */
  ghost predicate PendingFrom(s: State, inputs: seq<Event>) {
    s.pending.Some? ==> exists first :: first in inputs && Shows(s.pending.value, first)
  }

  lemma ApplyShows(s: State, step: Step, inputs: seq<Event>)
    requires Inv(s) && step != Close && PendingFrom(s, inputs) && (step.Handle? ==> step.event in inputs)
    ensures PendingFrom(Apply(s, step).0, inputs)
    ensures forall i :: 0 <= i < |Apply(s, step).1| && Apply(s, step).1[i].Streamed? ==>
              exists first :: first in inputs && Shows(Apply(s, step).1[i].event, first)
  {
    if s.pending.Some? {
      var first :| first in inputs && Shows(s.pending.value, first);
      assert Snapshot(s.pending.value) == s.pending.value;
    }
    if step.Handle? && IsDelta(step.event) {
      if Continues(s, step.event) {
        var p := s.pending.value;
        var first :| first in inputs && Shows(p, first);
        assert Shows(p.(message := p.message + step.event.message), first);
      } else {
        OpeningShows(s, step.event);
        assert Shows(Opening(step.event, s.message + 1), step.event);
        assert Snapshot(Opening(step.event, s.message + 1)) == Opening(step.event, s.message + 1);
      }
    }
  }

  lemma {:induction false} SnapshotsShowDeltas(s: State, steps: seq<Step>, inputs: seq<Event>)
    requires Inv(s) && NoClose(steps) && PendingFrom(s, inputs)
    requires forall e :: e in Inputs(steps) ==> e in inputs
    ensures forall i :: 0 <= i < |Run(s, steps).1| && Run(s, steps).1[i].Streamed? ==>
              exists first :: first in inputs && Shows(Run(s, steps).1[i].event, first)
    decreases |steps|
  {
    if steps != [] {
      var (s1, out) := Apply(s, steps[0]);
      assert steps[0].Handle? ==> steps[0].event in Inputs(steps);
      assert forall e :: e in Inputs(steps[1..]) ==> e in Inputs(steps);
      ApplyKeepsInv(s, steps[0]);
      ApplyShows(s, steps[0], inputs);
      SnapshotsShowDeltas(s1, steps[1..], inputs);
    }
  }

  /**
   In every run, each streaming snapshot shows a delta of assistant text that was handled: its session, turn,
   role and provider ID, marked as streaming, with text that begins with the delta's.
   */
  lemma SnapshotsAreOfDeltas(steps: seq<Step>)
    requires NoClose(steps)
    ensures forall i :: 0 <= i < |Run(IDLE, steps).1| && Run(IDLE, steps).1[i].Streamed? ==>
              exists first :: first in Inputs(steps) && Shows(Run(IDLE, steps).1[i].event, first)
  {
    SnapshotsShowDeltas(IDLE, steps, Inputs(steps));
  }

  // ---- Readers that replace snapshots by source ID ----

  /** Of adjacent events with one source ID, readers keep the last. */
  function LastOfEachSource(es: seq<Event>): seq<Event> {
    if |es| <= 1 then es
    else if es[0].sourceEventID == es[1].sourceEventID then LastOfEachSource(es[1..])
    else [es[0]] + LastOfEachSource(es[1..])
  }

  function Events(out: seq<Emission>): (es: seq<Event>)
    ensures |es| == |out| && forall i :: 0 <= i < |out| ==> es[i] == out[i].event
  {
    seq(|out|, i requires 0 <= i < |out| => out[i].event)
  }

  lemma {:induction false} SettlingKeepsTheLast(out: seq<Emission>)
    requires Orderly(out)
    ensures LastOfEachSource(Events(Settle(out))) == LastOfEachSource(Events(out))
    ensures out != [] ==> Settle(out) != []
                          && Settle(out)[0].event.sourceEventID == out[0].event.sourceEventID
  {
    if |out| >= 2 {
      var rest := out[1..];
      OrderlyTail(out);
      SettlingKeepsTheLast(rest);
      LastOfFirst(out[0], rest);
      assert out == [out[0]] + rest;
      if Superseded(out[0], out[1]) {
        assert SameStream(out[0], out[1]) && Grows(out[0], out[1]);
      } else {
        LastOfFirst(out[0], Settle(rest));
      }
    }
  }

  lemma OrderlyTail(out: seq<Emission>)
    requires Orderly(out) && out != []
    ensures Orderly(out[1..])
  {
    assert forall i :: 0 <= i < |out| - 1 ==> out[1..][i] == out[i + 1];
  }

  lemma LastOfFirst(x: Emission, rest: seq<Emission>)
    requires rest != []
    ensures LastOfEachSource(Events([x] + rest)) ==
            if x.event.sourceEventID == rest[0].event.sourceEventID then LastOfEachSource(Events(rest))
            else [x.event] + LastOfEachSource(Events(rest))
  {
    assert Events([x] + rest)[1..] == Events(rest);
  }

  /** Readers see the same history for every timer schedule. */
  lemma ReadersSeeOneHistory(steps: seq<Step>)
    requires NoClose(steps)
    ensures LastOfEachSource(Events(Run(IDLE, steps + [Close]).1))
            == LastOfEachSource(Events(Reference(Inputs(steps), 0)))
  {
    StreamsOnlyGrow(steps + [Close]);
    TimingDoesNotMatter(steps, []);
    assert steps + [Close] + [] == steps + [Close];
    SettlingKeepsTheLast(Run(IDLE, steps + [Close]).1);
  }
}
