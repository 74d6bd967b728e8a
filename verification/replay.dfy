/**
 The replay matcher (journal/replay.go): an ordered, greedy matcher that recognizes, in a
 provider's replayed history, the events that are already in the journal.
 */
module Replay {
  import opened Outcomes
  import opened Text
  import opened Host
  import opened Journal

  // ---- Keys ----

  datatype ReplayKey = ReplayKey(session: string, conversation: string, thread: string, turn: string,
                                 event: EventName, providerID: string, content: string, source: string)

  datatype ReplayTurn = ReplayTurn(session: string, conversation: string, thread: string, turn: string)

  /** An empty scope is a wildcard. */
  predicate ScopeMatches(a: string, b: string) {
    a == "" || b == "" || a == b
  }

  predicate SameStream(a: ReplayKey, b: ReplayKey) {
    && a.event == b.event && ScopeMatches(a.session, b.session)
    && ScopeMatches(a.conversation, b.conversation) && ScopeMatches(a.thread, b.thread)
  }

  predicate TurnMatches(a: ReplayTurn, b: ReplayKey) {
    && a.turn == b.turn && ScopeMatches(a.session, b.session)
    && ScopeMatches(a.conversation, b.conversation) && ScopeMatches(a.thread, b.thread)
  }

  predicate Terminal(event: EventName) {
    event in {AgentYielded, AgentInterrupted, AgentTurnFailed, AgentProcessExited}
  }

  /** The content a record is compared by; None for records that are not replayed. */
  function Content(record: Record): Option<string>
    requires record.data.Fields?
  {
    match record.event
    case UserMessage | AgentMessage | AgentPlanProposed => Some(TrimSpace(record.data.message))
    case AgentTodoUpdated => Some(record.data.todos)
    case AgentWorkspace | AgentPermission => Some(record.data.selected)
    case AgentTurnStarted | AgentYielded | AgentInterrupted | AgentTurnFailed | AgentProcessExited =>
      Some(TrimSpace(record.turnID))
    case _ => None
  }

  predicate Comparable(k: ReplayKey) {
    k.providerID != "" || k.content != ""
  }

  function KeyFor(record: Record): (r: Option<ReplayKey>)
    ensures r.Some? ==> Comparable(r.value)
  {
    if !record.data.Fields? then None
    else match Content(record)
      case None => None
      case Some(content) =>
        var key := ReplayKey(TrimSpace(record.sessionID), TrimSpace(record.conversation),
                             TrimSpace(record.data.threadID), TrimSpace(record.turnID), record.event,
                             TrimSpace(record.data.providerID), content, TrimSpace(record.sourceEventID));
        if Comparable(key) then Some(key) else None
  }

  /** Wildcard scopes make the stream relation reflexive and symmetric, but not transitive. */
  lemma SameStreamIsNotTransitive()
    ensures forall a :: SameStream(a, a)
    ensures forall a, b :: SameStream(a, b) ==> SameStream(b, a)
    ensures exists a, b, c :: SameStream(a, b) && SameStream(b, c) && !SameStream(a, c)
  {
    var a := ReplayKey("", "", "one", "", AgentMessage, "", "x", "");
    var b := a.(thread := "");
    var c := a.(thread := "two");
    assert a.thread[0] != c.thread[0];
    assert SameStream(a, b) && SameStream(b, c) && !SameStream(a, c);
  }

  // ---- The matcher as a value ----

  datatype Matcher = Matcher(records: seq<ReplayKey>, completed: seq<ReplayTurn>, next: nat, limit: nat) {
    predicate Valid() {
      next <= limit <= |records| && forall i :: 0 <= i < |records| ==> Comparable(records[i])
    }
  }

  datatype Criterion = ByProvider | ByContent

  predicate Meets(c: Criterion, persisted: ReplayKey, key: ReplayKey) {
    SameStream(persisted, key) &&
    match c
    case ByProvider => key.providerID != "" && persisted.providerID == key.providerID
    case ByContent => key.content != "" && persisted.content == key.content
  }

  /**
   What the matcher promises of a match, on the fields: the same kind of event in compatible scopes, with
   the same provider ID or the same content.
   */
  predicate Recognizes(persisted: ReplayKey, key: ReplayKey) {
    && persisted.event == key.event
    && (persisted.session == "" || key.session == "" || persisted.session == key.session)
    && (persisted.conversation == "" || key.conversation == "" || persisted.conversation == key.conversation)
    && (persisted.thread == "" || key.thread == "" || persisted.thread == key.thread)
    && (|| (key.providerID != "" && persisted.providerID == key.providerID)
        || (key.content != "" && persisted.content == key.content))
  }

  /** A persisted key ahead of the cursor recognizes the replayed one. */
  predicate Recognized(m: Matcher, key: ReplayKey)
    requires m.Valid()
  {
    exists i :: m.next <= i < m.limit && Recognizes(m.records[i], key)
  }

  /** The key belongs to a turn whose terminal event was recorded. */
  predicate OfEndedTurn(m: Matcher, key: ReplayKey) {
    key.turn != "" && exists t :: t in m.completed && EndedTurn(t, key)
  }

  predicate EndedTurn(t: ReplayTurn, key: ReplayKey) {
    && t.turn == key.turn
    && (t.session == "" || key.session == "" || t.session == key.session)
    && (t.conversation == "" || key.conversation == "" || t.conversation == key.conversation)
    && (t.thread == "" || key.thread == "" || t.thread == key.thread)
  }

  /** The first index in [lo, hi) whose key meets the criterion. */
  function First(c: Criterion, records: seq<ReplayKey>, lo: nat, hi: nat, key: ReplayKey): (r: Option<nat>)
    requires lo <= hi <= |records|
    ensures r.Some? ==> lo <= r.value < hi && Meets(c, records[r.value], key)
    ensures forall i :: lo <= i < (if r.Some? then r.value else hi) ==> !Meets(c, records[i], key)
    decreases hi - lo
  {
    if lo == hi then None
    else if Meets(c, records[lo], key) then Some(lo)
    else First(c, records, lo + 1, hi, key)
  }

  /** Where a key is found: provider identity is preferred over content. */
  function Hit(m: Matcher, key: ReplayKey): (r: Option<nat>)
    requires m.Valid()
    ensures r.Some? ==> m.next <= r.value < m.limit && SameStream(m.records[r.value], key)
  {
    var byProvider := First(ByProvider, m.records, m.next, m.limit, key);
    if byProvider.Some? then byProvider else First(ByContent, m.records, m.next, m.limit, key)
  }

  /**
   Matching is sound and complete: a key is found if and only if a persisted key ahead recognizes it; what
   is found is the first with its provider ID, or, when none ahead has that, the first with its content.
   */
  lemma HitExactly(m: Matcher, key: ReplayKey)
    requires m.Valid()
    ensures Hit(m, key).Some? <==> Recognized(m, key)
    ensures Hit(m, key).Some? ==>
              var i := Hit(m, key).value;
              && m.next <= i < m.limit && Recognizes(m.records[i], key)
              && (forall j :: m.next <= j < i && Recognizes(m.records[j], key) ==>
                    && key.providerID != "" && m.records[i].providerID == key.providerID
                    && m.records[j].providerID != key.providerID)
              && (key.providerID == "" || m.records[i].providerID != key.providerID ==>
                    && m.records[i].content == key.content
                    && forall j :: m.next <= j < m.limit && Recognizes(m.records[j], key) ==>
                         key.providerID == "" || m.records[j].providerID != key.providerID)
  {
    if Recognized(m, key) {
      var i :| m.next <= i < m.limit && Recognizes(m.records[i], key);
      assert Meets(ByProvider, m.records[i], key) || Meets(ByContent, m.records[i], key);
    }
    forall j | m.next <= j < m.limit
      ensures Recognizes(m.records[j], key)
              <==> Meets(ByProvider, m.records[j], key) || Meets(ByContent, m.records[j], key)
    {
    }
  }

  lemma EndedTurnExactly(m: Matcher, key: ReplayKey)
    ensures InCompletedTurn(m, key) <==> OfEndedTurn(m, key)
  {
    if InCompletedTurn(m, key) {
      var i :| 0 <= i < |m.completed| && TurnMatches(m.completed[i], key);
      assert m.completed[i] in m.completed;
    }
    if OfEndedTurn(m, key) {
      var t :| t in m.completed && EndedTurn(t, key);
      var i :| 0 <= i < |m.completed| && m.completed[i] == t;
      assert TurnMatches(m.completed[i], key);
    }
  }

  predicate InCompletedTurn(m: Matcher, key: ReplayKey) {
    key.turn != "" && exists i :: 0 <= i < |m.completed| && TurnMatches(m.completed[i], key)
  }

  function Rewound(m: Matcher): Matcher {
    m.(next := 0, limit := |m.records|)
  }

  /** Whether recording a key overwrites the last one: adjacent snapshots of one source are one event. */
  predicate Merges(m: Matcher, key: ReplayKey) {
    && key.source != "" && m.records != []
    && m.records[|m.records| - 1].source == key.source && SameStream(m.records[|m.records| - 1], key)
  }

  function Appended(m: Matcher, key: ReplayKey): Matcher {
    if Merges(m, key) then m.(records := m.records[..|m.records| - 1] + [key])
    else m.(records := m.records + [key],
            completed := m.completed +
              if Terminal(key.event) && key.turn != ""
              then [ReplayTurn(key.session, key.conversation, key.thread, key.turn)] else [])
  }

  function Recorded(m: Matcher, record: Record): Matcher {
    match KeyFor(record) case Some(key) => Appended(m, key) case None => m
  }

  function RecordedAll(m: Matcher, records: seq<Record>): Matcher
    decreases |records|
  {
    if records == [] then m
    else Recorded(RecordedAll(m, records[..|records| - 1]), records[|records| - 1])
  }

  /** The matcher over a whole journal (NewReplayMatcher). */
  function Indexed(records: seq<Record>): (m: Matcher)
    ensures m.Valid() && m.next == 0
  {
    RecordedAllIsValid(Matcher([], [], 0, 0), records);
    var m := RecordedAll(Matcher([], [], 0, 0), records);
    m.(limit := |m.records|)
  }

  lemma {:induction false} RecordedAllIsValid(m: Matcher, records: seq<Record>)
    requires m.Valid()
    ensures RecordedAll(m, records).Valid()
    ensures RecordedAll(m, records).next == m.next && RecordedAll(m, records).limit == m.limit
  {
    if records != [] {
      RecordedAllIsValid(m, records[..|records| - 1]);
    }
  }

  lemma {:induction false} RecordedAllConcat(m: Matcher, a: seq<Record>, b: seq<Record>)
    ensures RecordedAll(m, a + b) == RecordedAll(RecordedAll(m, a), b)
    decreases |b|
  {
    if b == [] {
      assert a + b == a;
    } else {
      var last := |b| - 1;
      assert (a + b)[..|a + b| - 1] == a + b[..last];
      RecordedAllConcat(m, a, b[..last]);
    }
  }

  // ---- One replayed event (runtime/runtime.go, deliverNow) ----

  datatype Outcome = Matched(index: nat) | InClosedTurn | Missed

  function MatchKey(m: Matcher, key: ReplayKey): (Matcher, Option<nat>)
    requires m.Valid()
  {
    match Hit(m, key)
    case Some(i) => (m.(next := i + 1), Some(i))
    case None => (m, None)
  }

  /** A replayed key is matched, or belongs to a completed turn, or is new and gets recorded. */
  function ReplayStep(m: Matcher, key: ReplayKey): (Matcher, Outcome)
    requires m.Valid()
  {
    match Hit(m, key)
    case Some(i) => (m.(next := i + 1), Matched(i))
    case None => if InCompletedTurn(m, key) then (m, InClosedTurn) else (Appended(m, key), Missed)
  }

  /** Each replayed key is matched, dropped with its ended turn, or new, and which is decided by the fields. */
  lemma StepExactly(m: Matcher, key: ReplayKey)
    requires m.Valid()
    ensures ReplayStep(m, key).1.Matched? <==> Recognized(m, key)
    ensures ReplayStep(m, key).1 == InClosedTurn <==> !Recognized(m, key) && OfEndedTurn(m, key)
    ensures ReplayStep(m, key).1 == Missed <==> !Recognized(m, key) && !OfEndedTurn(m, key)
  {
    HitExactly(m, key);
    EndedTurnExactly(m, key);
  }

  /** One replay of a provider's history, without a rewind. */
  function Pass(m: Matcher, keys: seq<ReplayKey>): (r: (Matcher, seq<Outcome>))
    requires m.Valid() && forall i :: 0 <= i < |keys| ==> Comparable(keys[i])
    ensures r.0.Valid() && |r.1| == |keys|
    ensures r.0.limit == m.limit && m.next <= r.0.next
    decreases |keys|
  {
    if keys == [] then (m, [])
    else
      var (m1, o) := ReplayStep(m, keys[0]);
      var (m2, os) := Pass(m1, keys[1..]);
      (m2, [o] + os)
  }

  // ---- The matcher as the source has it ----

  class ReplayMatcher {
    var records: seq<ReplayKey>
    var completedTurns: seq<ReplayTurn>
    var next: nat
    var limit: nat

    ghost function View(): Matcher
      reads this
    {
      Matcher(records, completedTurns, next, limit)
    }

    ghost predicate Valid()
      reads this
    {
      View().Valid()
    }

    constructor (history: seq<Record>)
      ensures Valid() && View() == Indexed(history)
    {
      records, completedTurns, next, limit := [], [], 0, 0;
      new;
      for i := 0 to |history|
        invariant Valid() && View() == RecordedAll(Matcher([], [], 0, 0), history[..i])
      {
        assert history[..i + 1][..i] == history[..i];
        Record(history[i]);
        RecordedAllIsValid(Matcher([], [], 0, 0), history[..i + 1]);
      }
      assert history[..|history|] == history;
      limit := |records|;
    }

    method Match(record: Journal.Record) returns (matched: bool)
      requires Valid()
      modifies this
      ensures Valid()
      ensures KeyFor(record) == None ==> !matched && View() == old(View())
      ensures KeyFor(record).Some? ==>
                View() == MatchKey(old(View()), KeyFor(record).value).0 &&
                matched == Hit(old(View()), KeyFor(record).value).Some?
      ensures matched <==> KeyFor(record).Some? && Recognized(old(View()), KeyFor(record).value)
    {
      var keyed := KeyFor(record);
      if keyed == None {
        return false;
      }
      HitExactly(View(), keyed.value);
      matched := MatchComparable(keyed.value);
    }

    method MatchComparable(key: ReplayKey) returns (matched: bool)
      requires Valid()
      modifies this
      ensures Valid()
      ensures View() == MatchKey(old(View()), key).0 && matched == Hit(old(View()), key).Some?
    {
      if key.providerID != "" {
        var index := next;
        while index < limit
          invariant next <= index <= limit && View() == old(View())
          invariant First(ByProvider, records, next, limit, key) == First(ByProvider, records, index, limit, key)
        {
          var persisted := records[index];
          if SameStream(persisted, key) && persisted.providerID != "" && persisted.providerID == key.providerID {
            next := index + 1;
            return true;
          }
          index := index + 1;
        }
      }
      if key.content != "" {
        var index := next;
        while index < limit
          invariant next <= index <= limit && View() == old(View())
          invariant First(ByContent, records, next, limit, key) == First(ByContent, records, index, limit, key)
        {
          var persisted := records[index];
          if SameStream(persisted, key) && persisted.content == key.content {
            next := index + 1;
            return true;
          }
          index := index + 1;
        }
      }
      return false;
    }

    method MatchesCompletedTurn(record: Journal.Record) returns (matched: bool)
      ensures matched <==> KeyFor(record).Some? && InCompletedTurn(View(), KeyFor(record).value)
      ensures matched <==> KeyFor(record).Some? && OfEndedTurn(View(), KeyFor(record).value)
    {
      var keyed := KeyFor(record);
      if keyed.Some? {
        EndedTurnExactly(View(), keyed.value);
      }
      if keyed == None || keyed.value.turn == "" {
        return false;
      }
      for i := 0 to |completedTurns|
        invariant forall j :: 0 <= j < i ==> !TurnMatches(completedTurns[j], keyed.value)
      {
        if TurnMatches(completedTurns[i], keyed.value) {
          return true;
        }
      }
      return false;
    }

    method Reset()
      requires Valid()
      modifies this
      ensures Valid() && View() == Rewound(old(View()))
    {
      next := 0;
      limit := |records|;
    }

    method Record(record: Journal.Record)
      requires Valid()
      modifies this
      ensures Valid() && View() == Recorded(old(View()), record)
    {
      var keyed := KeyFor(record);
      if keyed == None {
        return;
      }
      var key := keyed.value;
      if key.source != "" && |records| > 0 {
        var last := |records| - 1;
        if records[last].source == key.source && SameStream(records[last], key) {
          records := records[..last] + [key];
          return;
        }
      }
      records := records + [key];
      if Terminal(key.event) && key.turn != "" {
        completedTurns := completedTurns + [ReplayTurn(key.session, key.conversation, key.thread, key.turn)];
      }
    }

    /** The replay branch of deliverNow: whether a replayed event is kept from the journal and the host. */
    method Suppress(event: Event, start: bool) returns (suppressed: bool)
      requires Valid()
      modifies this
      ensures Valid()
      ensures var m := if start then Rewound(old(View())) else old(View());
              match Translate(event)
              case None => View() == m && (suppressed <==> event.typ in {Thinking, ToolStarted, ToolOutput})
              case Some(record) =>
                match KeyFor(record)
                case None => View() == m && !suppressed
                case Some(key) =>
                  && View() == ReplayStep(m, key).0
                  && (suppressed <==> ReplayStep(m, key).1 != Missed)
                  && (suppressed <==> Recognized(m, key) || OfEndedTurn(m, key))
    {
      if start {
        Reset();
      }
      var translated := Translate(event);
      if translated.Some? && KeyFor(translated.value).Some? {
        StepExactly(View(), KeyFor(translated.value).value);
      }
      if translated == None {
        return event.typ in {Thinking, ToolStarted, ToolOutput};
      }
      suppressed := Match(translated.value);
      if !suppressed {
        suppressed := MatchesCompletedTurn(translated.value);
      }
      if !suppressed {
        Record(translated.value);
      }
    }
  }
}
