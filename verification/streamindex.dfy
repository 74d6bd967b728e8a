/** The replay index over a journal does not depend on the timing of the stream that was journaled. */
module StreamIndex {
  import opened Outcomes
  import opened Text
  import opened Host
  import opened Journal
  import opened Coalesce
  import opened Schedule
  import opened Streams
  import Replay
  import Lists

  // ---- Noting events one by one ----

  /** What journaling one live event does to a matcher over the journal. */
  function Noted(m: Replay.Matcher, e: Event): Replay.Matcher {
    match Translate(e) case Some(record) => Replay.Recorded(m, record) case None => m
  }

  function NotedAll(m: Replay.Matcher, out: seq<Emission>): Replay.Matcher
    decreases |out|
  {
    if out == [] then m else NotedAll(Noted(m, out[0].event), out[1..])
  }

  /** The matcher built from the journal of a run is the one that notes its events in turn. */
  lemma {:induction false} NotedAllIsRecorded(m: Replay.Matcher, out: seq<Emission>)
    ensures NotedAll(m, out) == Replay.RecordedAll(m, TranslateAll(Events(out)))
    decreases |out|
  {
    if out != [] {
      var head := match Translate(out[0].event) case Some(r) => [r] case None => [];
      NotedAllIsRecorded(Noted(m, out[0].event), out[1..]);
      assert Events(out)[1..] == Events(out[1..]);
      Replay.RecordedAllConcat(m, head, TranslateAll(Events(out[1..])));
      if head != [] {
        assert head[..0] == [];
        assert Replay.RecordedAll(m, head) == Replay.Recorded(m, head[0]);
      }
    }
  }

  /** The index over the journal of a run's output. */
  function IndexOf(out: seq<Emission>): Replay.Matcher {
    Replay.Indexed(TranslateAll(Events(out)))
  }

  // ---- Scope ----

  function ThreadKey(e: Event): string {
    TrimSpace(if e.backend != "" then e.threadID else "")
  }

  /** Assistant messages are journaled as such, from one session and one provider thread. */
  predicate Scoped(e: Event, session: string, thread: string) {
    e.typ == Message && AssistantText(e) ==>
      MessageName(e.role) == Some(AgentMessage) && TrimSpace(e.sessionID) == session && ThreadKey(e) == thread
  }

  predicate ScopedEmission(x: Emission, session: string, thread: string) {
    Scoped(x.event, session, thread) && (!x.Passed? ==> AssistantText(x.event) && !Blank(x.event.sourceEventID))
  }

  lemma StreamIDsAreNotBlank(s: string, t: string, n: nat)
    ensures !Blank(StreamSourceID(s, t, n))
  {
    var id := StreamSourceID(s, t, n);
    BlankIffAllSpace(id);
    var d := Decimal(n);
    assert id[|id| - 1] == d[|d| - 1];
  }

  lemma {:induction false} EmissionsAreScoped(s: State, steps: seq<Step>, session: string, thread: string)
    requires Inv(s) && PendingScoped(s, session, thread)
    requires forall i :: 0 <= i < |Inputs(steps)| ==> Scoped(Inputs(steps)[i], session, thread)
    ensures forall i :: 0 <= i < |Run(s, steps).1| ==> ScopedEmission(Run(s, steps).1[i], session, thread)
    decreases |steps|
  {
    if steps != [] {
      var (s1, out) := Apply(s, steps[0]);
      if steps[0].Handle? {
        assert Inputs(steps)[0] == steps[0].event;
        assert Inputs(steps)[1..] == Inputs(steps[1..]);
      }
      assert forall i :: 0 <= i < |Inputs(steps[1..])| ==>
          Inputs(steps[1..])[i] == Inputs(steps)[if steps[0].Handle? then i + 1 else i];
      OutIsScoped(s, steps[0], session, thread);
      if steps[0] == Close {
        ClosedIsSilent(s1, steps[1..]);
      } else {
        ApplyKeepsInv(s, steps[0]);
        EmissionsAreScoped(s1, steps[1..], session, thread);
      }
    }
  }

  /** The pending text is an assistant's, of the given scope. */
  predicate PendingScoped(s: State, session: string, thread: string) {
    s.pending.Some? ==> Scoped(s.pending.value, session, thread) && AssistantText(s.pending.value)
  }

  lemma FlushIsScoped(s: State, session: string, thread: string)
    requires Inv(s) && PendingScoped(s, session, thread)
    ensures forall i :: 0 <= i < |Flush(s)| ==> ScopedEmission(Flush(s)[i], session, thread)
  {
    if s.pending.Some? {
      StreamIDsAreNotBlank(s.pending.value.sessionID, s.pending.value.turnID, s.message);
    }
  }

  lemma OutIsScoped(s: State, step: Step, session: string, thread: string)
    requires Inv(s) && PendingScoped(s, session, thread)
    requires step.Handle? ==> Scoped(step.event, session, thread)
    ensures var (s1, out) := Apply(s, step);
            && (forall i :: 0 <= i < |out| ==> ScopedEmission(out[i], session, thread))
            && PendingScoped(s1, session, thread)
  {
    FlushIsScoped(s, session, thread);
    if step.Handle? {
      if IsDelta(step.event) && !Continues(s, step.event) {
        OpeningShows(s, step.event);
        ApplyKeepsInv(s, step);
        FlushIsScoped(Apply(s, step).0.(flushed := 0), session, thread);
      } else if s.pending.Some? {
        StreamIDsAreNotBlank(s.pending.value.sessionID, s.pending.value.turnID, s.message);
      }
    }
  }

  // ---- A snapshot gives way to the next one of its stream ----

  function MessageKey(e: Event, session: string, thread: string): Replay.ReplayKey {
    Replay.ReplayKey(session, TrimSpace(""), thread, TrimSpace(e.turnID), AgentMessage, TrimSpace(e.data.providerID),
                     TrimSpace(e.message), TrimSpace(e.sourceEventID))
  }

  lemma KeyOfMessage(e: Event, session: string, thread: string)
    requires e.typ == Message && AssistantText(e) && Scoped(e, session, thread)
    ensures Translate(e).Some?
    ensures Replay.KeyFor(Translate(e).value) ==
            if Replay.Comparable(MessageKey(e, session, thread)) then Some(MessageKey(e, session, thread)) else None
  {
  }

  lemma ThinkingIsNotJournaled(e: Event)
    requires e.typ == Thinking
    ensures Translate(e) == None
  {
  }

  /** Recording a key and then one of the same stream and source is recording the second. */
  lemma AdjacentKeysMerge(m: Replay.Matcher, a: Replay.ReplayKey, b: Replay.ReplayKey)
    requires a.source != "" && !Replay.Terminal(a.event) && !Replay.Terminal(b.event)
    requires b.source == a.source && b.event == a.event && b.session == a.session
    requires b.conversation == a.conversation && b.thread == a.thread
    ensures Replay.Appended(Replay.Appended(m, a), b) == Replay.Appended(m, b)
  {
    var m1 := Replay.Appended(m, a);
    assert m1.records[|m1.records| - 1] == a;
    assert m1.records[..|m1.records| - 1] == if Replay.Merges(m, a) then m.records[..|m.records| - 1] else m.records;
  }

  predicate FinalIsReadable(x: Emission) {
    x.Finished? && x.event.typ == Message ==> !Blank(x.event.message)
  }

  lemma SnapshotGivesWay(m: Replay.Matcher, x: Emission, y: Emission, session: string, thread: string)
    requires Superseded(x, y) && Grows(x, y) && FinalIsReadable(y)
    requires ScopedEmission(x, session, thread) && ScopedEmission(y, session, thread)
    ensures Noted(Noted(m, x.event), y.event) == Noted(m, y.event)
  {
    if x.event.typ == Thinking {
      ThinkingIsNotJournaled(x.event);
    } else {
      KeyOfMessage(x.event, session, thread);
      KeyOfMessage(y.event, session, thread);
      var kx, ky := MessageKey(x.event, session, thread), MessageKey(y.event, session, thread);
      if Replay.Comparable(kx) {
        if y.Streamed? && Blank(y.event.message) {
          BlankPrefix(x.event.message, y.event.message);
        }
        assert Replay.Comparable(ky);
        AdjacentKeysMerge(m, kx, ky);
      }
    }
  }

  lemma {:induction false} FinishedStays(out: seq<Emission>, i: nat)
    requires i < |out| && out[i].Finished?
    ensures out[i] in Settle(out)
  {
    if |out| >= 2 {
      if i > 0 {
        FinishedStays(out[1..], i - 1);
      }
    }
  }

  lemma {:induction false} SettledNotesAlike(m: Replay.Matcher, out: seq<Emission>, session: string, thread: string)
    requires Orderly(out)
    requires forall i :: 0 <= i < |out| ==> ScopedEmission(out[i], session, thread) && FinalIsReadable(out[i])
    ensures NotedAll(m, out) == NotedAll(m, Settle(out))
    decreases |out|
  {
    if |out| >= 2 {
      var rest := out[1..];
      assert forall i :: 0 <= i < |rest| ==> rest[i] == out[i + 1];
      if Superseded(out[0], out[1]) {
        assert SameStream(out[0], out[1]) && Grows(out[0], out[1]);
        SnapshotGivesWay(m, out[0], out[1], session, thread);
        SettledNotesAlike(m, rest, session, thread);
      } else {
        SettledNotesAlike(Noted(m, out[0].event), rest, session, thread);
        assert ([out[0]] + Settle(rest))[1..] == Settle(rest);
      }
    }
  }

  // ---- The replay index ignores streaming timing ----

  /** One session and thread, and nonblank final snapshots. */
  predicate Steady(inputs: seq<Event>, session: string, thread: string) {
    && (forall i :: 0 <= i < |inputs| ==> Scoped(inputs[i], session, thread))
    && (forall i :: 0 <= i < |Reference(inputs, 0)| ==> FinalIsReadable(Reference(inputs, 0)[i]))
  }

  lemma {:induction false} InputsConcat(a: seq<Step>, b: seq<Step>)
    ensures Inputs(a + b) == Inputs(a) + Inputs(b)
  {
    if a == [] {
      Lists.Nil(b);
      Lists.Nil(Inputs(b));
    } else {
      Lists.TailConcat(a, b);
      InputsConcat(a[1..], b);
      Lists.Assoc(match a[0] case Handle(e) => [e] case _ => [], Inputs(a[1..]), Inputs(b));
    }
  }

  /** The index over the journal of any timer schedule is the index over the timer-free reference. */
  lemma IndexIgnoresTiming(steps: seq<Step>, session: string, thread: string)
    requires NoClose(steps) && Steady(Inputs(steps), session, thread)
    ensures IndexOf(Run(IDLE, steps + [Close]).1) == IndexOf(Reference(Inputs(steps), 0))
  {
    var out := Run(IDLE, steps + [Close]).1;
    assert steps + [Close] + [] == steps + [Close];
    TimingDoesNotMatter(steps, []);
    StreamsOnlyGrow(steps + [Close]);
    InputsConcat(steps, [Close]);
    assert Inputs([Close]) == [] && Inputs(steps) + [] == Inputs(steps);
    EmissionsAreScoped(IDLE, steps + [Close], session, thread);
    forall i | 0 <= i < |out|
      ensures FinalIsReadable(out[i])
    {
      if out[i].Finished? {
        FinishedStays(out, i);
      }
    }
    var none := Replay.Matcher([], [], 0, 0);
    SettledNotesAlike(none, out, session, thread);
    NotedAllIsRecorded(none, out);
    NotedAllIsRecorded(none, Settle(out));
  }

  // ---- Exactly one key per message stream ----

  function KeyOf(e: Event): Option<Replay.ReplayKey> {
    match Translate(e) case Some(record) => Replay.KeyFor(record) case None => None
  }

  function KeyList(e: Event): seq<Replay.ReplayKey> {
    match KeyOf(e) case Some(k) => [k] case None => []
  }

  /** The keys of the emissions, one by one. */
  function KeysOf(out: seq<Emission>): seq<Replay.ReplayKey> {
    if out == [] then []
    else KeyList(out[0].event) + KeysOf(out[1..])
  }

  /** Events that pass through carry no stream's source ID. They may share theirs with one another. */
  predicate OwnSources(out: seq<Emission>) {
    forall i, j :: 0 <= i < |out| && 0 <= j < |out| && out[i].Passed? && !out[j].Passed? ==>
      Source(out[i]) != Source(out[j])
  }

  function Source(x: Emission): string {
    TrimSpace(x.event.sourceEventID)
  }

  predicate DistinctStreams(out: seq<Emission>) {
    forall i, j :: 0 <= i < j < |out| && !out[i].Passed? && !out[j].Passed? ==> Source(out[i]) != Source(out[j])
  }

  ghost predicate CarriesID(x: Emission) {
    !x.Passed? ==>
      exists session, turn :: x.event.sourceEventID == StreamSourceID(session, turn, x.stream)
  }

  /** Every stream has one emission, numbered above n, under the stream's own source ID. */
  ghost predicate StreamsAbove(out: seq<Emission>, n: nat) {
    && (forall i :: 0 <= i < |out| ==> CarriesID(out[i]) && (!out[i].Passed? ==> n < out[i].stream))
    && (forall i, j :: 0 <= i < j < |out| && !out[i].Passed? && !out[j].Passed? ==> out[i].stream < out[j].stream)
  }

  lemma StreamInFront(x: Emission, out: seq<Emission>, n: nat)
    requires StreamsAbove(out, n + 1) && !x.Passed? && x.stream == n + 1 && CarriesID(x)
    ensures StreamsAbove([x] + out, n)
  {
  }

  lemma PassedInFront(x: Emission, out: seq<Emission>, n: nat)
    requires StreamsAbove(out, n) && x.Passed?
    ensures StreamsAbove([x] + out, n)
  {
  }

  lemma OpeningCarriesID(e: Event, x: Emission)
    requires !x.Passed? && x.event.sourceEventID == Opening(e, x.stream).sourceEventID
    ensures CarriesID(x)
  {
    assert x.event.sourceEventID == StreamSourceID(e.sessionID, e.turnID, x.stream);
  }

  /** What the reference makes of its first events, how many they are, and the streams there are behind them. */
  lemma FirstOfReference(es: seq<Event>, n: nat) returns (head: seq<Emission>, k: nat, n': nat)
    requires es != []
    ensures 0 < k <= |es| && Reference(es, n) == head + Reference(es[k..], n')
    ensures Heads(es[0], head, n, n')
  {
    if IsDelta(es[0]) {
      n' := n + 1;
      k := StreamLength(es[0], es);
      var whole := Opening(es[0], n').(message := TextOf(es[..k]));
      if k < |es| && Ends(es[0], es[k]) {
        head, k := [Finished(n', Final(whole, es[k]))], k + 1;
      } else {
        head := if whole.message == "" then [] else [Streamed(n', whole)];
      }
    } else {
      head, k, n' := [Passed(es[0])], 1, n;
    }
  }

  /** At most one emission: an event that passes, or stream n + 1 as e opens it. */
  predicate Heads(e: Event, head: seq<Emission>, n: nat, n': nat) {
    && n <= n' <= n + 1 && |head| <= 1
    && (head != [] ==>
          if head[0].Passed? then n' == n
          else head[0].stream == n' == n + 1 && head[0].event.sourceEventID == Opening(e, n').sourceEventID)
  }

  lemma HeadAbove(e: Event, head: seq<Emission>, later: seq<Emission>, n: nat, n': nat)
    requires StreamsAbove(later, n') && Heads(e, head, n, n')
    ensures StreamsAbove(head + later, n)
  {
    if head == [] {
      Lists.Nil(later);
    } else {
      assert head == [head[0]];
      if head[0].Passed? {
        PassedInFront(head[0], later, n);
      } else {
        OpeningCarriesID(e, head[0]);
        StreamInFront(head[0], later, n);
      }
    }
  }

  lemma {:induction false} ReferenceStreams(es: seq<Event>, n: nat)
    ensures StreamsAbove(Reference(es, n), n)
    decreases |es|
  {
    if es == [] {
      assert Reference(es, n) == [];
    } else {
      var head, k, n' := FirstOfReference(es, n);
      ReferenceStreams(es[k..], n');
      HeadAbove(es[0], head, Reference(es[k..], n'), n, n');
    }
  }

  lemma TrimmedStreamIDsDiffer(s: string, t: string, i: nat, s': string, t': string, j: nat)
    requires i != j
    ensures TrimSpace(StreamSourceID(s, t, i)) != TrimSpace(StreamSourceID(s', t', j))
  {
    TrimKeepsNumber(s + ":turn:" + (if t == "" then "-" else t) + ":msg", i);
    TrimKeepsNumber(s' + ":turn:" + (if t' == "" then "-" else t') + ":msg", j);
    DecimalRoundTrip(i);
    DecimalRoundTrip(j);
  }

  lemma ReferenceSourcesAreDistinct(es: seq<Event>)
    ensures DistinctStreams(Reference(es, 0))
  {
    var out := Reference(es, 0);
    ReferenceStreams(es, 0);
    forall i, j | 0 <= i < j < |out| && !out[i].Passed? && !out[j].Passed?
      ensures Source(out[i]) != Source(out[j])
    {
      assert CarriesID(out[i]) && CarriesID(out[j]);
      var s, t :| out[i].event.sourceEventID == StreamSourceID(s, t, out[i].stream);
      var s', t' :| out[j].event.sourceEventID == StreamSourceID(s', t', out[j].stream);
      TrimmedStreamIDsDiffer(s, t, out[i].stream, s', t', out[j].stream);
    }
  }

  /** The emissions of streams, without the events that passed through. */
  function StreamsIn(out: seq<Emission>): seq<Emission> {
    if out == [] then [] else (if out[0].Passed? then [] else [out[0]]) + StreamsIn(out[1..])
  }

  function StreamSources(out: seq<Emission>): set<string> {
    set x | x in out && !x.Passed? :: Source(x)
  }

  /** The keys that come from the given sources, in order. */
  function KeysFrom(keys: seq<Replay.ReplayKey>, sources: set<string>): seq<Replay.ReplayKey> {
    if keys == [] then []
    else
      var last := |keys| - 1;
      KeysFrom(keys[..last], sources) + if keys[last].source in sources then [keys[last]] else []
  }

  lemma KeysFromAppended(keys: seq<Replay.ReplayKey>, key: Replay.ReplayKey, sources: set<string>)
    ensures KeysFrom(keys + [key], sources)
            == KeysFrom(keys, sources) + if key.source in sources then [key] else []
  {
    assert (keys + [key])[..|keys|] == keys;
  }

  lemma KeySource(e: Event)
    requires KeyOf(e).Some?
    ensures KeyOf(e).value.source == TrimSpace(e.sourceEventID)
  {
  }

  /** The source of the last key is of no stream that is still to come. */
  predicate LastSourceIsNew(m: Replay.Matcher, out: seq<Emission>) {
    m.records != [] ==>
      forall i :: 0 <= i < |out| && !out[i].Passed? ==> m.records[|m.records| - 1].source != Source(out[i])
  }

  /** Every stream's source is in the set, and no other's. */
  predicate Covers(sources: set<string>, out: seq<Emission>) {
    forall i :: 0 <= i < |out| ==> (Source(out[i]) in sources <==> !out[i].Passed?)
  }

  /** Noting an emission adds a stream's key to the streams' keys, and leaves them alone otherwise. */
  lemma NotedFrom(m: Replay.Matcher, x: Emission, sources: set<string>)
    requires Source(x) in sources <==> !x.Passed?
    requires m.records != [] && !x.Passed? ==> m.records[|m.records| - 1].source != Source(x)
    ensures KeysFrom(Noted(m, x.event).records, sources)
            == KeysFrom(m.records, sources) + if x.Passed? then [] else KeyList(x.event)
    ensures var m' := Noted(m, x.event);
            m'.records != [] ==>
              m'.records[|m'.records| - 1].source == Source(x)
              || (m.records != [] && m'.records[|m'.records| - 1] == m.records[|m.records| - 1])
  {
    Lists.Nil(KeysFrom(m.records, sources));
    if KeyOf(x.event).Some? {
      KeySource(x.event);
      AppendedFrom(m, KeyOf(x.event).value, sources);
    }
  }

  lemma AppendedFrom(m: Replay.Matcher, key: Replay.ReplayKey, sources: set<string>)
    requires m.records != [] && key.source in sources ==> m.records[|m.records| - 1].source != key.source
    ensures KeysFrom(Replay.Appended(m, key).records, sources)
            == KeysFrom(m.records, sources) + if key.source in sources then [key] else []
  {
    if Replay.Merges(m, key) {
      var last := |m.records| - 1;
      KeysFromAppended(m.records[..last], key, sources);
      Lists.Nil(KeysFrom(m.records[..last], sources));
    } else {
      KeysFromAppended(m.records, key, sources);
    }
  }

  lemma {:induction false} StreamsAreIndexed(m: Replay.Matcher, out: seq<Emission>, sources: set<string>)
    requires DistinctStreams(out) && LastSourceIsNew(m, out) && Covers(sources, out)
    ensures KeysFrom(NotedAll(m, out).records, sources)
            == KeysFrom(m.records, sources) + KeysOf(StreamsIn(out))
    decreases |out|
  {
    if out == [] {
      Lists.Nil(KeysFrom(m.records, sources));
    } else {
      var x, rest := out[0], out[1..];
      assert forall i :: 0 <= i < |rest| ==> rest[i] == out[i + 1];
      NotedFrom(m, x, sources);
      StreamsAreIndexed(Noted(m, x.event), rest, sources);
      KeysOfStreamsIn(out);
      Lists.Assoc(KeysFrom(m.records, sources), if x.Passed? then [] else KeyList(x.event), KeysOf(StreamsIn(rest)));
    }
  }

  lemma KeysOfStreamsIn(out: seq<Emission>)
    requires out != []
    ensures KeysOf(StreamsIn(out))
            == (if out[0].Passed? then [] else KeyList(out[0].event)) + KeysOf(StreamsIn(out[1..]))
  {
    var later := StreamsIn(out[1..]);
    Lists.Nil(later);
    Lists.Nil(KeysOf(later));
    assert ([out[0]] + later)[1..] == later;
  }

  lemma SourcesCover(out: seq<Emission>)
    requires OwnSources(out)
    ensures Covers(StreamSources(out), out)
  {
    forall i | 0 <= i < |out|
      ensures Source(out[i]) in StreamSources(out) <==> !out[i].Passed?
    {
      if !out[i].Passed? {
        assert out[i] in out;
      }
    }
  }

  /**
   When the events that pass through carry no stream's source ID, what the index of any timer schedule
   holds under the streams' sources is one key for every message stream with readable text, in
   order, and its content is that text.
   */
  lemma OneKeyPerStream(steps: seq<Step>, session: string, thread: string)
    requires NoClose(steps) && Steady(Inputs(steps), session, thread)
    requires OwnSources(Reference(Inputs(steps), 0))
    ensures var reference := Reference(Inputs(steps), 0);
            && DistinctStreams(reference)
            && KeysFrom(IndexOf(Run(IDLE, steps + [Close]).1).records, StreamSources(reference))
               == KeysOf(StreamsIn(reference))
    ensures forall i :: 0 <= i < |Reference(Inputs(steps), 0)| ==>
              var x := Reference(Inputs(steps), 0)[i];
              !x.Passed? && x.event.typ == Message && !Blank(x.event.message) ==>
                KeyOf(x.event) == Some(MessageKey(x.event, session, thread))
  {
    var reference := Reference(Inputs(steps), 0);
    var none := Replay.Matcher([], [], 0, 0);
    IndexIgnoresTiming(steps, session, thread);
    NotedAllIsRecorded(none, reference);
    ReferenceSourcesAreDistinct(Inputs(steps));
    SourcesCover(reference);
    StreamsAreIndexed(none, reference, StreamSources(reference));
    Lists.Nil(KeysOf(StreamsIn(reference)));
    ReferenceIsScoped(steps, session, thread);
    forall i | 0 <= i < |reference| && !reference[i].Passed? && reference[i].event.typ == Message
               && !Blank(reference[i].event.message)
      ensures KeyOf(reference[i].event) == Some(MessageKey(reference[i].event, session, thread))
    {
      KeyOfMessage(reference[i].event, session, thread);
    }
  }

  lemma {:induction false} SettledIsPart(out: seq<Emission>)
    ensures forall x :: x in Settle(out) ==> x in out
  {
    if |out| >= 2 {
      SettledIsPart(out[1..]);
    }
  }

  lemma ReferenceIsScoped(steps: seq<Step>, session: string, thread: string)
    requires NoClose(steps) && Steady(Inputs(steps), session, thread)
    ensures forall i :: 0 <= i < |Reference(Inputs(steps), 0)| ==>
              ScopedEmission(Reference(Inputs(steps), 0)[i], session, thread)
  {
    var out := Run(IDLE, steps + [Close]).1;
    assert steps + [Close] + [] == steps + [Close];
    TimingDoesNotMatter(steps, []);
    InputsConcat(steps, [Close]);
    assert Inputs([Close]) == [] && Inputs(steps) + [] == Inputs(steps);
    EmissionsAreScoped(IDLE, steps + [Close], session, thread);
    SettledIsPart(out);
    forall i | 0 <= i < |Reference(Inputs(steps), 0)|
      ensures ScopedEmission(Reference(Inputs(steps), 0)[i], session, thread)
    {
      assert Reference(Inputs(steps), 0)[i] in out;
    }
  }
}
