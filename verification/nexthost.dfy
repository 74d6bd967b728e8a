/** A second resume in a new host, whose matcher is built from the journal that the first one extended. */
module NextHost {
  import opened Outcomes
  import opened Journal
  import opened Replay
  import opened Resume
  import Lists

  function KeysIn(r: Record): (keys: seq<ReplayKey>)
    ensures Keys(keys)
  {
    match KeyFor(r) case Some(key) => [key] case None => []
  }

  /** The keys of the replayed records that have one. */
  function Keyed(replayed: seq<Record>): (keys: seq<ReplayKey>)
    ensures Keys(keys)
  {
    if replayed == [] then [] else KeysIn(replayed[0]) + Keyed(replayed[1..])
  }

  /** The replayed records that are not suppressed, and so go to the journal and the host. */
  function Forwarded(m: Matcher, replayed: seq<Record>): seq<Record>
    requires m.Valid()
    decreases |replayed|
  {
    if replayed == [] then []
    else match KeyFor(replayed[0])
      case None => [replayed[0]] + Forwarded(m, replayed[1..])
      case Some(key) =>
        var (m1, o) := ReplayStep(m, key);
        (if o == Missed then [replayed[0]] else []) + Forwarded(m1, replayed[1..])
  }

  // ---- What a pass records is what a new host reads back ----

  lemma {:induction false} RecordingIgnoresCursor(m: Matcher, records: seq<Record>, next: nat, limit: nat)
    ensures RecordedAll(m.(next := next, limit := limit), records)
            == RecordedAll(m, records).(next := next, limit := limit)
    decreases |records|
  {
    if records != [] {
      RecordingIgnoresCursor(m, records[..|records| - 1], next, limit);
    }
  }

  lemma RecordedFirst(m: Matcher, first: Record, rest: seq<Record>)
    ensures RecordedAll(m, [first] + rest) == RecordedAll(Recorded(m, first), rest)
  {
    RecordedAllConcat(m, [first], rest);
    assert [first][..0] == [];
    assert RecordedAll(m, [first]) == Recorded(m, first);
  }

  predicate SameIndex(a: Matcher, b: Matcher) {
    a.records == b.records && a.completed == b.completed
  }

  lemma KeyedUnfolds(replayed: seq<Record>)
    requires replayed != []
    ensures KeyFor(replayed[0]) == None ==> Keyed(replayed) == Keyed(replayed[1..])
    ensures KeyFor(replayed[0]).Some? ==>
              && Keyed(replayed) != [] && Keyed(replayed)[0] == KeyFor(replayed[0]).value
              && Keyed(replayed)[1..] == Keyed(replayed[1..])
  {
    Lists.Nil(Keyed(replayed[1..]));
  }

  /** A replay whose first record has a key goes on behind that key's step. */
  lemma {:induction false} ReplayUnfolds(m: Matcher, replayed: seq<Record>, key: ReplayKey)
    requires m.Valid() && replayed != [] && KeyFor(replayed[0]) == Some(key)
    ensures var (m1, o) := ReplayStep(m, key);
            && m1.Valid()
            && Forwarded(m, replayed) == (if o == Missed then [replayed[0]] else []) + Forwarded(m1, replayed[1..])
            && Pass(m, Keyed(replayed)).0 == Pass(m1, Keyed(replayed[1..])).0
  {
    KeyedUnfolds(replayed);
    PassUnfolds(m, Keyed(replayed));
  }

  lemma {:induction false} PassRecordsForwarded(m: Matcher, replayed: seq<Record>)
    requires m.Valid()
    ensures SameIndex(Pass(m, Keyed(replayed)).0, RecordedAll(m, Forwarded(m, replayed)))
    decreases |replayed|
  {
    if replayed != [] {
      var rest := replayed[1..];
      if KeyFor(replayed[0]) == None {
        KeyedUnfolds(replayed);
        PassRecordsForwarded(m, rest);
        RecordedFirst(m, replayed[0], Forwarded(m, rest));
      } else {
        var key := KeyFor(replayed[0]).value;
        ReplayUnfolds(m, replayed, key);
        var m1 := ReplayStep(m, key).0;
        PassRecordsForwarded(m1, rest);
        StepRecords(m, replayed[0], key, Forwarded(m1, rest));
      }
    }
  }

  /** Recording what a step forwards, and then more, indexes as recording more behind the step. */
  lemma StepRecords(m: Matcher, first: Record, key: ReplayKey, more: seq<Record>)
    requires m.Valid() && KeyFor(first) == Some(key)
    ensures var (m1, o) := ReplayStep(m, key);
            SameIndex(RecordedAll(m, (if o == Missed then [first] else []) + more), RecordedAll(m1, more))
  {
    var (m1, o) := ReplayStep(m, key);
    if o == Missed {
      RecordedFirst(m, first, more);
    } else {
      Lists.Nil(more);
      RecordingIgnoresCursor(m, more, m1.next, m1.limit);
    }
  }

  /** The matcher of a new host is the one of the last host, rewound. */
  lemma NewHostRewinds(journal: seq<Record>, replayed: seq<Record>)
    ensures Indexed(journal + Forwarded(Indexed(journal), replayed))
            == Rewound(Pass(Indexed(journal), Keyed(replayed)).0)
  {
    var none := Matcher([], [], 0, 0);
    var m := Indexed(journal);
    var more := Forwarded(m, replayed);
    PassRecordsForwarded(m, replayed);
    RecordedAllConcat(none, journal, more);
    RecordedAllIsValid(none, journal);
    RecordedAllIsValid(none, journal + more);
    RecordingIgnoresCursor(RecordedAll(none, journal), more, 0, m.limit);
  }

  // ---- A second resume ----

  /** The keys that are forwarded are the new ones. */
  lemma {:induction false} ForwardedKeysAreNew(m: Matcher, replayed: seq<Record>)
    requires m.Valid()
    ensures Keyed(Forwarded(m, replayed)) == NewKeys(Keyed(replayed), Pass(m, Keyed(replayed)).1)
    decreases |replayed|
  {
    if replayed != [] {
      KeyedUnfolds(replayed);
      var first, rest := replayed[0], replayed[1..];
      match KeyFor(first)
      case None =>
        ForwardedKeysAreNew(m, rest);
        KeyedCons(first, Forwarded(m, rest));
        Lists.Nil(Keyed(Forwarded(m, rest)));
      case Some(key) =>
        PassUnfolds(m, Keyed(replayed));
        var (m1, o) := ReplayStep(m, key);
        ForwardedKeysAreNew(m1, rest);
        StepForwards(first, key, o, Forwarded(m1, rest));
        NewKeysUnfold(Keyed(replayed), Pass(m, Keyed(replayed)).1);
    }
  }

  lemma StepForwards(first: Record, key: ReplayKey, o: Outcome, more: seq<Record>)
    requires KeyFor(first) == Some(key)
    ensures Keyed((if o == Missed then [first] else []) + more)
            == (if o == Missed then [key] else []) + Keyed(more)
  {
    KeyedCons(first, more);
    Lists.Nil(more);
    Lists.Nil(Keyed(more));
  }

  lemma NewKeysUnfold(keys: seq<ReplayKey>, out: seq<Outcome>)
    requires |keys| == |out| && keys != []
    ensures NewKeys(keys, out) == (if out[0] == Missed then [keys[0]] else []) + NewKeys(keys[1..], out[1..])
  {
  }

  lemma KeyedCons(first: Record, rest: seq<Record>)
    ensures Keyed([first] + rest) == KeysIn(first) + Keyed(rest)
  {
    assert ([first] + rest)[1..] == rest;
  }

  /**
   Resume converges across hosts: a new host that gets the same replay matches every comparable event
   of it exactly when the new events of the first resume all came at its end.
   */
  lemma NextHostConverges(journal: seq<Record>, replayed: seq<Record>)
    requires PlainPass(Indexed(journal), Keyed(replayed))
    ensures var extended := journal + Forwarded(Indexed(journal), replayed);
            AllMatched(Pass(Indexed(extended), Keyed(replayed)).1)
            <==> NewOnlyAtTheEnd(Pass(Indexed(journal), Keyed(replayed)).1)
  {
    NewHostRewinds(journal, replayed);
    ResumeConverges(Indexed(journal), Keyed(replayed));
  }

  /** And then it forwards nothing that can be compared: no event is journaled twice. */
  lemma NextHostForwardsNothing(journal: seq<Record>, replayed: seq<Record>)
    requires PlainPass(Indexed(journal), Keyed(replayed))
    requires NewOnlyAtTheEnd(Pass(Indexed(journal), Keyed(replayed)).1)
    ensures var extended := journal + Forwarded(Indexed(journal), replayed);
            Keyed(Forwarded(Indexed(extended), replayed)) == []
  {
    var extended := journal + Forwarded(Indexed(journal), replayed);
    NextHostConverges(journal, replayed);
    ForwardedKeysAreNew(Indexed(extended), replayed);
    NewKeysOfMatched(Keyed(replayed), Pass(Indexed(extended), Keyed(replayed)).1);
  }
}
