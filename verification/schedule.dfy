/** The coalescer's output does not depend on when its timer fires. */
module Schedule {
  import opened Outcomes
  import opened Text
  import opened Host
  import opened Coalesce
  import Lists

  predicate NoClose(steps: seq<Step>) {
    Close !in steps
  }

  /** What the pending event of an open coalescer looks like. */
  predicate Inv(s: State) {
    !s.closed && (s.pending.Some? ==>
      var p := s.pending.value;
      && s.flushed <= ByteLen(p.message) && p.data == StreamData(p.data)
      && s.turnID == p.turnID && s.streamType == p.typ
      && p.sourceEventID == StreamSourceID(p.sessionID, p.turnID, s.message))
  }

  lemma ApplyKeepsInv(s: State, step: Step)
    requires Inv(s) && step != Close
    ensures Inv(Apply(s, step).0)
  {
    if step.Handle? && IsDelta(step.event) && Continues(s, step.event) {
      ByteLenGrows(s.pending.value.message, step.event.message);
    }
  }

  lemma {:induction false} RunConcat(s: State, a: seq<Step>, b: seq<Step>)
    ensures Run(s, a + b) == (Run(Run(s, a).0, b).0, Run(s, a).1 + Run(Run(s, a).0, b).1)
    decreases |a|
  {
    if a == [] {
      Lists.Nil(b);
      Lists.Nil(Run(s, b).1);
    } else {
      Lists.TailConcat(a, b);
      var (s1, out) := Apply(s, a[0]);
      RunConcat(s1, a[1..], b);
      Lists.Assoc(out, Run(s1, a[1..]).1, Run(Run(s, a).0, b).1);
    }
  }

  /** A closed coalescer swallows everything. */
  lemma {:induction false} ClosedIsSilent(s: State, steps: seq<Step>)
    requires s.closed
    ensures Run(s, steps) == (s, [])
    decreases |steps|
  {
    if steps != [] {
      ClosedIsSilent(s, steps[1..]);
      var nothing: seq<Emission> := [];
      assert nothing + nothing == nothing;
    }
  }

  // ---- Settling ----

  /** out does not begin with an emission of stream n. */
  predicate StartsElsewhere(out: seq<Emission>, n: nat) {
    out == [] || out[0].Passed? || out[0].stream != n
  }

  lemma SettleCons(x: Emission, out: seq<Emission>)
    ensures out != [] && Superseded(x, out[0]) ==> Settle([x] + out) == Settle(out)
    ensures out == [] || !Superseded(x, out[0]) ==> Settle([x] + out) == [x] + Settle(out)
  {
    assert ([x] + out)[1..] == out;
    if out == [] {
      assert [x] + Settle(out) == [x];
    }
  }

  /** A snapshot behind an earlier one of its stream makes that one redundant. */
  lemma SettleRedundant(n: nat, q: Event, x: Emission, out: seq<Emission>)
    requires !x.Passed? && x.stream == n
    ensures Settle([Streamed(n, q)] + ([x] + out)) == Settle([x] + out)
  {
    SettleCons(Streamed(n, q), [x] + out);
  }

  /** Every emission of a run belongs to the current stream or a later one. */
  lemma {:induction false} StreamsGoUp(s: State, steps: seq<Step>)
    ensures forall i :: 0 <= i < |Run(s, steps).1| && !Run(s, steps).1[i].Passed? ==>
              s.message <= Run(s, steps).1[i].stream
    ensures s.pending == None ==> StartsElsewhere(Run(s, steps).1, s.message)
    decreases |steps|
  {
    if steps != [] {
      StreamsGoUp(Apply(s, steps[0]).0, steps[1..]);
    }
  }

  // ---- The reference from the middle of a stream ----

  /** What the remaining events mean when stream n, opened by p's source, has p's text so far. */
  function Ongoing(p: Event, n: nat, es: seq<Event>): seq<Emission> {
    var k := StreamLength(p, es);
    var whole := p.(message := p.message + TextOf(es[..k]));
    if k < |es| && Ends(p, es[k])
    then [Finished(n, Final(whole, es[k]))] + Reference(es[k + 1..], n)
    else (if whole.message == "" then [] else [Streamed(n, whole)]) + Reference(es[k..], n)
  }

  /** The text of the current stream, as it stands if nothing more comes. */
  function Standing(s: State): seq<Emission> {
    if s.pending == None || s.pending.value.message == "" then [] else [Streamed(s.message, s.pending.value)]
  }

  function Rest(s: State, es: seq<Event>): seq<Emission> {
    if s.pending == None then Reference(es, s.message) else Ongoing(s.pending.value, s.message, es)
  }

  lemma ReferenceOpens(e: Event, es: seq<Event>, n: nat)
    requires IsDelta(e)
    ensures Reference([e] + es, n) == Ongoing(Opening(e, n + 1), n + 1, es)
  {
    var all := [e] + es;
    var k := StreamLength(e, es);
    assert all[1..] == es;
    assert StreamLength(e, all) == 1 + k;
    assert all[..1 + k][1..] == es[..k];
    StreamLengthSame(e, Opening(e, n + 1), es);
    assert all[1 + k..] == es[k..];
    if k < |es| {
      assert all[1 + k + 1..] == es[k + 1..];
    }
  }

  lemma {:induction false} StreamLengthSame(e: Event, p: Event, es: seq<Event>)
    requires e.turnID == p.turnID && e.typ == p.typ
    ensures StreamLength(e, es) == StreamLength(p, es)
  {
    if es != [] {
      StreamLengthSame(e, p, es[1..]);
    }
  }

  lemma StreamLengthGrows(p: Event, e: Event, es: seq<Event>)
    requires IsDelta(e) && e.turnID == p.turnID && e.typ == p.typ
    ensures var k := StreamLength(p, es);
            StreamLength(p, [e] + es) == 1 + k && ([e] + es)[..1 + k] == [e] + es[..k]
            && TextOf(([e] + es)[..1 + k]) == e.message + TextOf(es[..k])
            && ([e] + es)[1 + k..] == es[k..]
            && (k < |es| ==> ([e] + es)[1 + k] == es[k] && ([e] + es)[2 + k..] == es[k + 1..])
  {
    assert ([e] + es)[1..] == es;
    var k := StreamLength(p, es);
    assert ([e] + es)[..1 + k] == [e] + es[..k];
    assert ([e] + es[..k])[1..] == es[..k];
  }

  /** A further delta of the stream extends its text. */
  lemma OngoingContinues(p: Event, n: nat, e: Event, es: seq<Event>)
    requires IsDelta(e) && e.turnID == p.turnID && e.typ == p.typ
    ensures Ongoing(p, n, [e] + es) == Ongoing(p.(message := p.message + e.message), n, es)
  {
    var p' := p.(message := p.message + e.message);
    StreamLengthSame(p, p', es);
    StreamLengthGrows(p, e, es);
    var k := StreamLength(p, es);
    assert p.message + (e.message + TextOf(es[..k])) == p'.message + TextOf(es[..k]);
    assert p.(message := p.message + TextOf(([e] + es)[..1 + k])) == p'.(message := p'.message + TextOf(es[..k]));
  }

  /** Any other event is where the stream stops. */
  lemma OngoingStops(p: Event, n: nat, e: Event, es: seq<Event>)
    requires !(IsDelta(e) && e.turnID == p.turnID && e.typ == p.typ)
    ensures Ongoing(p, n, [e] + es) ==
            if Ends(p, e) then [Finished(n, Final(p, e))] + Reference(es, n)
            else (if p.message == "" then [] else [Streamed(n, p)]) + Reference([e] + es, n)
  {
    var all := [e] + es;
    assert StreamLength(p, all) == 0;
    assert all[..0] == [] && p.message + TextOf([]) == p.message;
    assert all[0..] == all && all[1..] == es;
  }

  // ---- Schedule independence ----

  /** The last snapshot the readers have of the current stream, when there is one. */
  predicate Shown(s: State, pre: seq<Emission>) {
    if s.pending == None || s.flushed == 0 then pre == []
    else |pre| == 1 && pre[0].Streamed? && pre[0].stream == s.message
         && (ByteLen(s.pending.value.message) == s.flushed ==> pre[0].event == s.pending.value)
  }

  lemma EmptyByByteLen(s: string)
    ensures ByteLen(s) == 0 <==> s == ""
  {
  }

  /** What was shown of a stream gives way to its next emission. */
  lemma NewSnapshotReplaces(s: State, pre: seq<Emission>, x: Emission, later: seq<Emission>)
    requires Shown(s, pre) && !x.Passed? && x.stream == s.message
    ensures Settle(pre + ([x] + later)) == Settle([x] + later)
  {
    if pre == [] {
      Lists.Nil([x] + later);
    } else {
      assert pre == [Streamed(s.message, pre[0].event)];
      SettleRedundant(s.message, pre[0].event, x, later);
    }
  }

  /** Settling what was shown and what is still owed, before anything of another stream. */
  lemma SettleShown(s: State, pre: seq<Emission>, out: seq<Emission>)
    requires Inv(s) && Shown(s, pre) && StartsElsewhere(out, s.message)
    ensures Settle(pre + (Flush(s) + out)) ==
            Standing(s) + Settle(out)
  {
    if s.pending.Some? {
      var p := s.pending.value;
      EmptyByByteLen(p.message);
      assert Snapshot(p) == p;
      var x := Streamed(s.message, p);
      SettleCons(x, out);
      if Flush(s) == [] {
        Lists.Nil(out);
        assert pre != [] ==> pre == [x];
      } else {
        assert Flush(s) == [x];
        NewSnapshotReplaces(s, pre, x, out);
      }
    } else {
      Lists.Nil(out);
      Lists.Nil(Settle(out));
    }
  }

  /**
   From any state: whatever the timer does until the coalescer closes, the settled output is what
   the timer-free reference makes of the remaining events.
   */
  lemma {:induction false} SettlesToReference(s: State, pre: seq<Emission>, steps: seq<Step>)
    requires Inv(s) && NoClose(steps) && Shown(s, pre)
    ensures Settle(pre + Run(s, steps + [Close]).1) == Rest(s, Inputs(steps))
    decreases |steps|, 0, 0
  {
    if steps == [] {
      assert steps + [Close] == [Close];
      assert Run(s, [Close]).1 == Flush(s) + [];
      SettleShown(s, pre, []);
      RestOfNothing(s);
    } else {
      var step, rest := steps[0], steps[1..];
      assert (steps + [Close])[1..] == rest + [Close];
      ApplyKeepsInv(s, step);
      var (s1, out) := Apply(s, step);
      var later := Run(s1, rest + [Close]).1;
      assert Run(s, steps + [Close]).1 == out + later;
      match step
      case TimerFires =>
        assert Inputs(steps) == Inputs(rest);
        TimerSettles(s, pre, rest);
      case Handle(e) =>
        assert Inputs(steps) == [e] + Inputs(rest);
        if IsDelta(e) && Continues(s, e) {
          ByteLenGrows(s.pending.value.message, e.message);
          assert s.pending.value.message + "" == s.pending.value.message;
          assert e.message == "" ==> s1 == s;
          SettlesToReference(s1, pre, rest);
          OngoingContinues(s.pending.value, s.message, e, Inputs(rest));
          assert out + later == later;
        } else {
          StopSettles(s, pre, e, rest);
        }
    }
  }

  lemma RestOfNothing(s: State)
    ensures Rest(s, []) == Standing(s)
  {
    if s.pending.Some? {
      var p := s.pending.value;
      assert p.message + TextOf([]) == p.message;
    }
  }

  lemma TimerSettles(s: State, pre: seq<Emission>, rest: seq<Step>)
    requires Inv(s) && NoClose(rest) && Shown(s, pre)
    ensures Settle(pre + (Flush(s) + Run(Flushed(s), rest + [Close]).1)) == Rest(s, Inputs(rest))
    decreases |rest|, 1
  {
    var s1, out := Flushed(s), Flush(s);
    ApplyKeepsInv(s, TimerFires);
    var later := Run(s1, rest + [Close]).1;
    if out == [] {
      SettlesToReference(s1, pre, rest);
      Lists.Nil(later);
    } else {
      var p := s.pending.value;
      EmptyByByteLen(p.message);
      assert Snapshot(p) == p;
      SettlesToReference(s1, out, rest);
      NewSnapshotReplaces(s, pre, out[0], later);
    }
  }

  lemma PassedSettles(s: State, pre: seq<Emission>, e: Event, later: seq<Emission>)
    requires Inv(s) && Shown(s, pre)
    ensures Settle(pre + ((Flush(s) + [Passed(e)]) + later)) ==
            Standing(s) + ([Passed(e)] + Settle(later))
  {
    SettleCons(Passed(e), later);
    SettleShown(s, pre, [Passed(e)] + later);
    Lists.Assoc(Flush(s), [Passed(e)], later);
  }

  lemma FinishedSettles(s: State, pre: seq<Emission>, e: Event, later: seq<Emission>)
    requires Inv(s) && Shown(s, pre) && StartsElsewhere(later, s.message)
    ensures Settle(pre + ([Finished(s.message, e)] + later)) == [Finished(s.message, e)] + Settle(later)
  {
    SettleCons(Finished(s.message, e), later);
    NewSnapshotReplaces(s, pre, Finished(s.message, e), later);
  }

  lemma StopSettles(s: State, pre: seq<Emission>, e: Event, rest: seq<Step>)
    requires Inv(s) && NoClose(rest) && Shown(s, pre)
    requires !(IsDelta(e) && Continues(s, e))
    ensures var (s1, out) := Apply(s, Handle(e));
            Settle(pre + (out + Run(s1, rest + [Close]).1)) == Rest(s, [e] + Inputs(rest))
    decreases |rest|, 2
  {
    if IsDelta(e) {
      OpeningSettles(s, pre, e, rest);
    } else {
      ApplyKeepsInv(s, Handle(e));
      var s1 := Cleared(s);
      var later := Run(s1, rest + [Close]).1;
      SettlesToReference(s1, [], rest);
      assert [] + later == later;
      RestStops(s, e, Inputs(rest));
      if IsSnapshot(e) && Continues(s, e) {
        StreamsGoUp(s1, rest + [Close]);
        FinishedSettles(s, pre, Final(s.pending.value, e), later);
      } else {
        ReferencePasses(e, Inputs(rest), s.message);
        PassedSettles(s, pre, e, later);
      }
    }
  }

  /** The reference at an event that is not a further delta of the current stream. */
  lemma RestStops(s: State, e: Event, es: seq<Event>)
    requires Inv(s) && !(IsDelta(e) && Continues(s, e))
    ensures Rest(s, [e] + es) ==
            if IsSnapshot(e) && Continues(s, e)
            then [Finished(s.message, Final(s.pending.value, e))] + Reference(es, s.message)
            else Standing(s) + Reference([e] + es, s.message)
  {
    if s.pending.Some? {
      OngoingStops(s.pending.value, s.message, e, es);
    }
  }

  lemma ReferencePasses(e: Event, es: seq<Event>, n: nat)
    requires !IsDelta(e)
    ensures Reference([e] + es, n) == [Passed(e)] + Reference(es, n)
  {
    assert ([e] + es)[1..] == es;
  }

  lemma OpeningSettles(s: State, pre: seq<Emission>, e: Event, rest: seq<Step>)
    requires Inv(s) && NoClose(rest) && Shown(s, pre)
    requires IsDelta(e) && !Continues(s, e)
    ensures var (s1, out) := Apply(s, Handle(e));
            Settle(pre + (out + Run(s1, rest + [Close]).1)) == Rest(s, [e] + Inputs(rest))
    decreases |rest|, 1
  {
    ApplyKeepsInv(s, Handle(e));
    OpeningShows(s, e);
    OpenedSettles(s, pre, e, Apply(s, Handle(e)).0, rest);
  }

  lemma OpenedSettles(s: State, pre: seq<Emission>, e: Event, s1: State, rest: seq<Step>)
    requires Inv(s) && Inv(s1) && NoClose(rest) && Shown(s, pre)
    requires IsDelta(e) && !Continues(s, e)
    requires s1.pending == Some(Opening(e, s.message + 1)) && s1.message == s.message + 1
    requires Shown(s1, Flush(s1.(flushed := 0)))
    ensures Settle(pre + ((Flush(s) + Flush(s1.(flushed := 0))) + Run(s1, rest + [Close]).1))
            == Rest(s, [e] + Inputs(rest))
    decreases |rest|, 0, 1
  {
    var later := Run(s1, rest + [Close]).1;
    var shown := Flush(s1.(flushed := 0));
    SettlesToReference(s1, shown, rest);
    StreamsGoUp(s1, rest + [Close]);
    assert StartsElsewhere(shown + later, s.message);
    SettleShown(s, pre, shown + later);
    Lists.Assoc(Flush(s), shown, later);
    RestOpens(s, e, s1, Inputs(rest));
  }

  lemma RestOpens(s: State, e: Event, s1: State, es: seq<Event>)
    requires Inv(s) && IsDelta(e) && !Continues(s, e)
    requires s1.pending == Some(Opening(e, s.message + 1)) && s1.message == s.message + 1
    ensures Rest(s, [e] + es) == Standing(s) + Rest(s1, es)
  {
    var all := [e] + es;
    assert Rest(s, all) == Standing(s) + Reference(all, s.message) by {
      RestStops(s, e, es);
    }
    ReferenceIsRest(all, s.message, s1, es);
  }

  lemma ReferenceIsRest(all: seq<Event>, n: nat, s1: State, es: seq<Event>)
    requires all != [] && all == [all[0]] + es
    requires IsDelta(all[0]) && s1.pending == Some(Opening(all[0], n + 1)) && s1.message == n + 1
    ensures Reference(all, n) == Rest(s1, es)
  {
    ReferenceOpens(all[0], es, n);
  }

  lemma OpeningShows(s: State, e: Event)
    requires Inv(s) && IsDelta(e) && !Continues(s, e)
    ensures var (s1, out) := Apply(s, Handle(e));
            && s1.pending == Some(Opening(e, s.message + 1)) && s1.message == s.message + 1
            && out == Flush(s) + Flush(s1.(flushed := 0)) && Shown(s1, Flush(s1.(flushed := 0)))
  {
    EmptyByByteLen(e.message);
    assert Snapshot(Opening(e, s.message + 1)) == Opening(e, s.message + 1);
  }

  /**
   Schedule independence: for any interleaving of events and timer fires, closed at the end and
   whatever comes after, the settled output is the timer-free reference of the events.
   */
  lemma TimingDoesNotMatter(steps: seq<Step>, after: seq<Step>)
    requires NoClose(steps)
    ensures Settle(Run(IDLE, steps + [Close] + after).1) == Reference(Inputs(steps), 0)
  {
    RunConcat(IDLE, steps + [Close], after);
    RunConcat(IDLE, steps, [Close]);
    ClosedAfterClose(Run(IDLE, steps).0);
    ClosedIsSilent(Run(IDLE, steps + [Close]).0, after);
    SettlesToReference(IDLE, [], steps);
    var out := Run(IDLE, steps + [Close]).1;
    assert [] + out == out && out + [] == out;
  }

  lemma ClosedAfterClose(s: State)
    ensures Run(s, [Close]).0.closed
  {
  }

  // ---- What readers have before the end ----

  /** Closing shows what a timer fire would show. */
  lemma ClosingShowsWhatIsOwed(steps: seq<Step>)
    requires NoClose(steps)
    ensures Run(IDLE, steps + [Close]).1 == Run(IDLE, steps).1 + Flush(Run(IDLE, steps).0)
    ensures Inv(Run(IDLE, steps).0)
  {
    RunKeepsInv(IDLE, steps);
    RunConcat(IDLE, steps, [Close]);
    var s := Run(IDLE, steps).0;
    assert Run(s, [Close]).1 == Flush(s) + [];
    Lists.Nil(Flush(s));
  }

  lemma {:induction false} RunKeepsInv(s: State, steps: seq<Step>)
    requires Inv(s) && NoClose(steps)
    ensures Inv(Run(s, steps).0)
    decreases |steps|
  {
    if steps != [] {
      assert steps[0] != Close;
      ApplyKeepsInv(s, steps[0]);
      RunKeepsInv(Apply(s, steps[0]).0, steps[1..]);
    }
  }

  /** Whenever nothing is held back, readers have all that the events so far mean. */
  lemma UpToDate(steps: seq<Step>)
    requires NoClose(steps) && Flush(Run(IDLE, steps).0) == []
    ensures Settle(Run(IDLE, steps).1) == Reference(Inputs(steps), 0)
  {
    ClosingShowsWhatIsOwed(steps);
    Lists.Nil(Run(IDLE, steps).1);
    Lists.Nil(Run(IDLE, steps + [Close]).1);
    assert (steps + [Close]) + [] == steps + [Close];
    TimingDoesNotMatter(steps, []);
  }

  /** Text is held back only by a delta that continues its stream; every other step shows what is owed. */
  lemma HeldBackOnlyInStreams(s: State, step: Step)
    requires Inv(s) && Flush(Apply(s, step).0) != []
    ensures step.Handle? && IsDelta(step.event) && Continues(s, step.event)
  {
    if step.Handle? && IsDelta(step.event) && !Continues(s, step.event) {
      OpeningShows(s, step.event);
    }
  }

  /** A timer fire brings the readers up to date, and a second one in a row shows nothing more. */
  lemma TimerBringsReadersUpToDate(steps: seq<Step>)
    requires NoClose(steps)
    ensures Settle(Run(IDLE, steps + [TimerFires]).1) == Reference(Inputs(steps), 0)
    ensures Run(IDLE, steps + [TimerFires, TimerFires]).1 == Run(IDLE, steps + [TimerFires]).1
  {
    RunKeepsInv(IDLE, steps);
    var s := Run(IDLE, steps).0;
    var fired := steps + [TimerFires];
    RunConcat(IDLE, steps, [TimerFires]);
    LastStep(s, TimerFires);
    InputsOfFired(steps);
    assert Run(IDLE, fired).0 == Flushed(s) && Flush(Flushed(s)) == [];
    UpToDate(fired);
    assert steps + [TimerFires, TimerFires] == fired + [TimerFires];
    RunConcat(IDLE, fired, [TimerFires]);
    LastStep(Flushed(s), TimerFires);
    Lists.Nil(Run(IDLE, fired).1);
  }

  lemma LastStep(s: State, step: Step)
    ensures Run(s, [step]) == Apply(s, step)
  {
    Lists.Nil(Apply(s, step).1);
    assert [step][1..] == [];
  }

  lemma {:induction false} InputsOfFired(steps: seq<Step>)
    ensures Inputs(steps + [TimerFires]) == Inputs(steps)
  {
    if steps == [] {
      assert Inputs([TimerFires]) == [] + Inputs([]);
    } else {
      Lists.TailConcat(steps, [TimerFires]);
      InputsOfFired(steps[1..]);
    }
  }

  /** The event that opens a stream, and every event outside one, is shown at once. */
  lemma OthersAreShownAtOnce(steps: seq<Step>, e: Event)
    requires NoClose(steps) && !(IsDelta(e) && Continues(Run(IDLE, steps).0, e))
    ensures Settle(Run(IDLE, steps + [Handle(e)]).1) == Reference(Inputs(steps + [Handle(e)]), 0)
  {
    RunKeepsInv(IDLE, steps);
    var s := Run(IDLE, steps).0;
    RunConcat(IDLE, steps, [Handle(e)]);
    LastStep(s, Handle(e));
    if Flush(Apply(s, Handle(e)).0) != [] {
      HeldBackOnlyInStreams(s, Handle(e));
      assert false;
    }
    UpToDate(steps + [Handle(e)]);
  }
}
