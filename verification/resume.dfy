/** What replay matching guarantees over whole passes of a provider's history. */
module Resume {
  import opened Outcomes
  import opened Host
  import opened Replay
  import Lists

  predicate Keys(keys: seq<ReplayKey>) {
    forall i :: 0 <= i < |keys| ==> Comparable(keys[i])
  }

  predicate AllMatched(outcomes: seq<Outcome>) {
    forall i :: 0 <= i < |outcomes| ==> outcomes[i].Matched?
  }

  /** The first key of a pass that was not matched. */
  function FirstUnmatched(outcomes: seq<Outcome>): (n: nat)
    ensures n <= |outcomes| && AllMatched(outcomes[..n]) && (n < |outcomes| ==> !outcomes[n].Matched?)
  {
    if outcomes == [] || !outcomes[0].Matched? then 0 else 1 + FirstUnmatched(outcomes[1..])
  }

  lemma {:induction false} PassConcat(m: Matcher, a: seq<ReplayKey>, b: seq<ReplayKey>)
    requires m.Valid() && Keys(a) && Keys(b) && Keys(a + b)
    ensures var (m1, o1) := Pass(m, a); Pass(m, a + b) == (Pass(m1, b).0, o1 + Pass(m1, b).1)
    decreases |a|
  {
    if a == [] {
      Lists.Nil(b);
      Lists.Nil(Pass(m, b).1);
    } else {
      Lists.TailConcat(a, b);
      var (m1, o) := ReplayStep(m, a[0]);
      PassConcat(m1, a[1..], b);
      Lists.Assoc([o], Pass(m1, a[1..]).1, Pass(Pass(m, a).0, b).1);
    }
  }

  lemma PassUnfolds(m: Matcher, keys: seq<ReplayKey>)
    requires m.Valid() && Keys(keys) && keys != []
    ensures Pass(m, keys).1[0] == ReplayStep(m, keys[0]).1
    ensures Pass(m, keys).1[1..] == Pass(ReplayStep(m, keys[0]).0, keys[1..]).1
    ensures Pass(m, keys).0 == Pass(ReplayStep(m, keys[0]).0, keys[1..]).0
    ensures AllMatched(Pass(m, keys).1) ==> AllMatched(Pass(ReplayStep(m, keys[0]).0, keys[1..]).1)
  {
    var rest := Pass(ReplayStep(m, keys[0]).0, keys[1..]).1;
    assert Pass(m, keys).1 == [ReplayStep(m, keys[0]).1] + rest;
    assert forall i :: 0 <= i < |rest| ==> rest[i] == Pass(m, keys).1[i + 1];
  }

  // ---- Matching is an ordered injection ----

  /** A key that is not matched leaves the cursor, and every completed turn stays completed. */
  lemma StepKeeps(m: Matcher, key: ReplayKey, other: ReplayKey)
    requires m.Valid() && Comparable(key)
    ensures var (m', o) := ReplayStep(m, key);
            && m'.Valid() && m'.limit == m.limit
            && (!o.Matched? ==> m'.next == m.next && MatchKey(m, key) == (m, None))
            && (o != Missed ==> m'.records == m.records && m'.completed == m.completed)
            && |m.records| <= |m'.records|
            && (forall i :: 0 <= i < m.limit - 1 ==> m'.records[i] == m.records[i])
            && (InCompletedTurn(m, other) ==> InCompletedTurn(m', other))
  {
    if InCompletedTurn(m, other) {
      var i :| 0 <= i < |m.completed| && TurnMatches(m.completed[i], other);
      assert ReplayStep(m, key).0.completed[i] == m.completed[i];
    }
  }

  /**
   Within one pass the matched indices strictly increase, stay below the limit set by the last
   rewind, and (except for the last slot, which a source merge may overwrite) name the persisted
   key they were matched against. So no persisted key suppresses two replayed events, and keys
   recorded during the pass cannot be matched in it.
   */
  lemma {:induction false} MatchingIsAnOrderedInjection(m: Matcher, keys: seq<ReplayKey>)
    requires m.Valid() && Keys(keys)
    ensures var (m', out) := Pass(m, keys);
            && (forall i, j :: 0 <= i < j < |out| && out[i].Matched? && out[j].Matched? ==>
                  out[i].index < out[j].index)
            && (forall i :: 0 <= i < |out| && out[i].Matched? ==>
                  m.next <= out[i].index < m.limit && out[i].index < m'.next)
            && (forall i :: 0 <= i < |out| && out[i].Matched? && out[i].index < m.limit - 1 ==>
                  SameStream(m.records[out[i].index], keys[i])
                  && (Meets(ByProvider, m.records[out[i].index], keys[i])
                      || Meets(ByContent, m.records[out[i].index], keys[i])))
            && |m.records| <= |m'.records|
            && (forall i :: 0 <= i < m.limit - 1 ==> m'.records[i] == m.records[i])
    decreases |keys|
  {
    if keys != [] {
      var (m1, o) := ReplayStep(m, keys[0]);
      StepKeeps(m, keys[0], keys[0]);
      MatchingIsAnOrderedInjection(m1, keys[1..]);
      var (m', out) := Pass(m, keys);
      var rest := Pass(m1, keys[1..]).1;
      assert out == [o] + rest;
      forall i | 0 < i < |out| && out[i].Matched? && out[i].index < m.limit - 1
        ensures SameStream(m.records[out[i].index], keys[i])
                && (Meets(ByProvider, m.records[out[i].index], keys[i])
                    || Meets(ByContent, m.records[out[i].index], keys[i]))
      {
        assert out[i] == rest[i - 1] && keys[i] == keys[1..][i - 1];
        assert m1.records[out[i].index] == m.records[out[i].index];
      }
    }
  }

  /** A turn known to be complete stays so over replays, recordings and rewinds. */
  lemma {:induction false} CompletedTurnsStay(m: Matcher, keys: seq<ReplayKey>, key: ReplayKey)
    requires m.Valid() && Keys(keys) && InCompletedTurn(m, key)
    ensures InCompletedTurn(Pass(m, keys).0, key) && InCompletedTurn(Rewound(Pass(m, keys).0), key)
    decreases |keys|
  {
    if keys != [] {
      StepKeeps(m, keys[0], key);
      CompletedTurnsStay(ReplayStep(m, keys[0]).0, keys[1..], key);
    }
  }

  // ---- Greedy matching is complete ----

  /**
   The persisted key at i identifies the replayed key for a search that starts at `from`: by provider
   ID, or by content when no persisted key ahead carries its provider ID.
   */
  predicate Anchors(m: Matcher, from: nat, i: nat, key: ReplayKey)
    requires m.Valid()
  {
    && from <= i < m.limit
    && (|| Meets(ByProvider, m.records[i], key)
        || (Meets(ByContent, m.records[i], key)
            && forall j :: from <= j < m.limit ==> !Meets(ByProvider, m.records[j], key)))
  }

  /** Where the search for the key at i starts: behind the position of the key before it. */
  function SearchStart(from: nat, at: seq<nat>, i: nat): nat
    requires i < |at|
  {
    if i == 0 then from else at[i - 1] + 1
  }

  /** Positions, each behind the one before it, at which persisted keys identify the replayed ones. */
  predicate Embeds(m: Matcher, from: nat, keys: seq<ReplayKey>, at: seq<nat>)
    requires m.Valid()
  {
    |at| == |keys| && forall i :: 0 <= i < |at| ==> Anchors(m, SearchStart(from, at, i), at[i], keys[i])
  }

  lemma EmbedsTail(m: Matcher, from: nat, keys: seq<ReplayKey>, at: seq<nat>)
    requires m.Valid() && |at| == |keys| && keys != []
    ensures Embeds(m, from, keys, at)
            <==> Anchors(m, from, at[0], keys[0]) && Embeds(m, at[0] + 1, keys[1..], at[1..])
  {
    assert forall i :: 0 < i < |at| ==>
        SearchStart(at[0] + 1, at[1..], i - 1) == SearchStart(from, at, i)
        && at[1..][i - 1] == at[i] && keys[1..][i - 1] == keys[i];
    if Embeds(m, from, keys, at) {
      assert Anchors(m, SearchStart(from, at, 0), at[0], keys[0]);
      forall i | 0 <= i < |at| - 1
        ensures Anchors(m, SearchStart(at[0] + 1, at[1..], i), at[1..][i], keys[1..][i])
      {
        assert Anchors(m, SearchStart(from, at, i + 1), at[i + 1], keys[i + 1]);
      }
    }
  }

  /** Where an embedding can only look at records and limit, the cursor does not matter. */
  lemma EmbedsWithin(m: Matcher, n: Matcher, from: nat, keys: seq<ReplayKey>, at: seq<nat>)
    requires m.Valid() && n.Valid() && m.records == n.records && m.limit == n.limit
    requires Embeds(m, from, keys, at)
    ensures Embeds(n, from, keys, at)
  {
    forall i | 0 <= i < |at|
      ensures Anchors(n, SearchStart(from, at, i), at[i], keys[i])
    {
      assert Anchors(m, SearchStart(from, at, i), at[i], keys[i]);
    }
  }

  /**
   If persisted keys at increasing positions identify the replayed keys, the greedy matcher matches
   every one of them, never beyond its position, even when it starts earlier than the embedding.
   */
  lemma {:induction false} EmbeddedKeysMatch(m: Matcher, from: nat, keys: seq<ReplayKey>, at: seq<nat>)
    requires m.Valid() && Keys(keys) && m.next <= from && Embeds(m, from, keys, at)
    ensures MatchedWithin(Pass(m, keys).1, at)
    decreases |keys|
  {
    if keys != [] {
      EmbedsTail(m, from, keys, at);
      AnchoredKeyMatches(m, from, at[0], keys[0]);
      PassUnfolds(m, keys);
      var m1 := ReplayStep(m, keys[0]).0;
      EmbedsWithin(m, m1, at[0] + 1, keys[1..], at[1..]);
      EmbeddedKeysMatch(m1, at[0] + 1, keys[1..], at[1..]);
      MatchedWithinFirst(Pass(m, keys).1, at);
    }
  }

  predicate MatchedWithin(outcomes: seq<Outcome>, at: seq<nat>) {
    |outcomes| == |at| && forall i :: 0 <= i < |at| ==> outcomes[i].Matched? && outcomes[i].index <= at[i]
  }

  lemma MatchedWithinFirst(outcomes: seq<Outcome>, at: seq<nat>)
    requires outcomes != [] && at != [] && outcomes[0].Matched? && outcomes[0].index <= at[0]
    requires MatchedWithin(outcomes[1..], at[1..])
    ensures MatchedWithin(outcomes, at)
  {
    assert forall i :: 0 < i < |at| ==> outcomes[i] == outcomes[1..][i - 1] && at[i] == at[1..][i - 1];
  }

  lemma AnchoredKeyMatches(m: Matcher, from: nat, i: nat, key: ReplayKey)
    requires m.Valid() && m.next <= from && Anchors(m, from, i, key)
    ensures Hit(m, key).Some? && Hit(m, key).value <= i
  {
  }

  function Indices(outcomes: seq<Outcome>): (at: seq<nat>)
    requires AllMatched(outcomes)
    ensures |at| == |outcomes| && forall i :: 0 <= i < |at| ==> at[i] == outcomes[i].index
  {
    seq(|outcomes|, i requires 0 <= i < |outcomes| => outcomes[i].index)
  }

  /** A pass that matches in full matches at such positions. */
  lemma {:induction false} FullPassEmbeds(m: Matcher, keys: seq<ReplayKey>)
    requires m.Valid() && Keys(keys) && AllMatched(Pass(m, keys).1)
    ensures Embeds(m, m.next, keys, Indices(Pass(m, keys).1))
    decreases |keys|
  {
    if keys != [] {
      PassUnfolds(m, keys);
      var (m1, o) := ReplayStep(m, keys[0]);
      assert Pass(m, keys).1[0].Matched?;
      FullPassEmbeds(m1, keys[1..]);
      var at, rest := Indices(Pass(m, keys).1), Indices(Pass(m1, keys[1..]).1);
      assert at[1..] == rest;
      EmbedsWithin(m1, m, at[0] + 1, keys[1..], rest);
      HitAnchors(m, keys[0]);
      EmbedsTail(m, m.next, keys, at);
    }
  }

  lemma HitAnchors(m: Matcher, key: ReplayKey)
    requires m.Valid() && Hit(m, key).Some?
    ensures Anchors(m, m.next, Hit(m, key).value, key)
  {
  }

  /**
   Greedy matching is complete: a pass matches in full if and only if the replayed keys can be placed at
   increasing positions ahead of the cursor, each with a persisted key of its provider ID, or, when
   none is ahead of the position before, with one of its content.
   */
  lemma GreedyMatchingIsComplete(m: Matcher, keys: seq<ReplayKey>)
    requires m.Valid() && Keys(keys)
    ensures AllMatched(Pass(m, keys).1) <==> exists at :: Embeds(m, m.next, keys, at)
  {
    if AllMatched(Pass(m, keys).1) {
      FullPassEmbeds(m, keys);
    }
    forall at | Embeds(m, m.next, keys, at)
      ensures AllMatched(Pass(m, keys).1)
    {
      EmbeddedKeysMatch(m, m.next, keys, at);
    }
  }

  /** A persisted key always identifies itself. */
  lemma KeysAnchorThemselves(m: Matcher, from: nat, i: nat)
    requires m.Valid() && from <= i < m.limit
    ensures Anchors(m, from, i, m.records[i])
  {
  }

  /** After a rewind, any order-preserving subsequence of the persisted keys replays in full. */
  lemma SubsequencesReplay(m: Matcher, at: seq<nat>)
    requires m.Valid()
    requires forall i :: 0 <= i < |at| ==> at[i] < |m.records|
    requires forall i, j :: 0 <= i < j < |at| ==> at[i] < at[j]
    ensures var keys := seq(|at|, i requires 0 <= i < |at| => m.records[at[i]]);
            Keys(keys) && AllMatched(Pass(Rewound(m), keys).1)
  {
    var keys := seq(|at|, i requires 0 <= i < |at| => m.records[at[i]]);
    forall i | 0 <= i < |at|
      ensures Anchors(Rewound(m), SearchStart(0, at, i), at[i], keys[i])
    {
      KeysAnchorThemselves(Rewound(m), SearchStart(0, at, i), at[i]);
    }
    assert Embeds(Rewound(m), 0, keys, at);
    GreedyMatchingIsComplete(Rewound(m), keys);
  }

  /** In particular a replay may begin at any persisted suffix. */
  lemma SuffixesReplay(m: Matcher, n: nat)
    requires m.Valid() && n <= |m.records|
    ensures AllMatched(Pass(Rewound(m), m.records[n..]).1)
  {
    var at := seq(|m.records| - n, i requires 0 <= i < |m.records| - n => n + i);
    SubsequencesReplay(m, at);
    assert m.records[n..] == seq(|at|, i requires 0 <= i < |at| => m.records[at[i]]);
  }

  /**
   One cursor serves all streams: two persisted keys of different streams that are replayed in the other
   order keep the order within each stream, and still the second one is new.
   */
  lemma StreamsShareOneCursor(a: ReplayKey, b: ReplayKey)
    requires Comparable(a) && Comparable(b) && !SameStream(a, b)
    ensures Pass(Matcher([a, b], [], 0, 2), [b, a]).1 == [Matched(1), Missed]
  {
    var m := Matcher([a, b], [], 0, 2);
    assert Hit(m, b) == Some(1) by {
      KeysAnchorThemselves(m, 0, 1);
      AnchoredKeyMatches(m, 0, 1, b);
    }
    var m1 := m.(next := 2);
    assert ReplayStep(m, b) == (m1, Matched(1));
    assert ReplayStep(m1, a).1 == Missed;
    assert [b, a][1..] == [a] && [a][1..] == [];
    assert Pass(m1, [a]).1 == [Missed] + [];
  }

  /**
   The preference for provider IDs is why content alone is not enough: here every replayed key
   has a persisted key with its content, in order, and still the second one is missed.
   */
  lemma ContentEmbeddingIsNotEnough()
    ensures exists m: Matcher, keys :: m.Valid() && m.next == 0 && Keys(keys) && |keys| == 2
              && (forall i :: 0 <= i < 2 ==> i < m.limit && Meets(ByContent, m.records[i], keys[i]))
              && Pass(m, keys).1[1] == Missed
  {
    var a := ReplayKey("s", "", "", "", UserMessage, "", "a", "");
    var b := a.(content := "b");
    var c := a.(content := "c", providerID := "p");
    var m := Matcher([a, b, c], [], 0, 3);
    var keys := [a.(providerID := "p"), b];
    assert "a"[0] != "b"[0] && "b"[0] != "c"[0] && "a"[0] != "c"[0];
    assert !Meets(ByProvider, m.records[0], keys[0]) && !Meets(ByProvider, m.records[1], keys[0]);
    assert First(ByProvider, m.records, 0, 3, keys[0]) == Some(2);
    var (m1, o) := ReplayStep(m, keys[0]);
    assert m1 == m.(next := 3);
    assert Hit(m1, b) == None;
    assert ReplayStep(m1, b).1 == Missed;
    assert keys[1..] == [b];
    assert Pass(m1, [b]).1[0] == Missed;
    assert Pass(m, keys).1[1] == Missed;
  }

  // ---- Resume converges ----

  /** The keys of a pass that were new. */
  function NewKeys(keys: seq<ReplayKey>, outcomes: seq<Outcome>): (r: seq<ReplayKey>)
    requires |keys| == |outcomes|
    ensures |r| <= |keys|
  {
    if keys == [] then []
    else (if outcomes[0] == Missed then [keys[0]] else []) + NewKeys(keys[1..], outcomes[1..])
  }

  lemma {:induction false} NewKeysConcat(a: seq<ReplayKey>, oa: seq<Outcome>, b: seq<ReplayKey>, ob: seq<Outcome>)
    requires |a| == |oa| && |b| == |ob|
    ensures NewKeys(a + b, oa + ob) == NewKeys(a, oa) + NewKeys(b, ob)
  {
    if a == [] {
      Lists.Nil(b);
      Lists.Nil(ob);
      Lists.Nil(NewKeys(b, ob));
    } else {
      Lists.TailConcat(a, b);
      Lists.TailConcat(oa, ob);
      NewKeysConcat(a[1..], oa[1..], b, ob);
      Lists.Assoc(if oa[0] == Missed then [a[0]] else [], NewKeys(a[1..], oa[1..]), NewKeys(b, ob));
    }
  }

  lemma {:induction false} NewKeysOfMatched(keys: seq<ReplayKey>, out: seq<Outcome>)
    requires |keys| == |out| && AllMatched(out)
    ensures NewKeys(keys, out) == []
  {
    if keys != [] {
      NewKeysOfMatched(keys[1..], out[1..]);
    }
  }

  lemma {:induction false} NewKeysOfMissed(keys: seq<ReplayKey>, out: seq<Outcome>)
    requires |keys| == |out| && forall i :: 0 <= i < |out| ==> out[i] == Missed
    ensures NewKeys(keys, out) == keys
  {
    if keys != [] {
      NewKeysOfMissed(keys[1..], out[1..]);
    }
  }

  /** A matched key is not new, so it makes the count of new keys fall short. */
  lemma {:induction false} MatchedKeysAreNotNew(keys: seq<ReplayKey>, out: seq<Outcome>, j: nat)
    requires |keys| == |out| && j < |out| && out[j] != Missed
    ensures |NewKeys(keys, out)| < |keys|
  {
    if j > 0 {
      MatchedKeysAreNotNew(keys[1..], out[1..], j - 1);
    }
  }

  /** Every match advances the cursor, so a fully matched pass needs as many persisted keys as it has. */
  lemma {:induction false} MatchesUseUpKeys(m: Matcher, keys: seq<ReplayKey>)
    requires m.Valid() && Keys(keys) && AllMatched(Pass(m, keys).1)
    ensures m.next + |keys| <= Pass(m, keys).0.next <= m.limit
    ensures Pass(m, keys).0 == m.(next := Pass(m, keys).0.next)
    decreases |keys|
  {
    if keys != [] {
      PassUnfolds(m, keys);
      MatchesUseUpKeys(ReplayStep(m, keys[0]).0, keys[1..]);
    }
  }

  /** b has a's persisted keys, and more behind a's limit. */
  predicate Extends(b: Matcher, a: Matcher)
    requires a.Valid() && b.Valid()
  {
    a.next == b.next && a.limit <= b.limit && forall i :: 0 <= i < a.limit ==> a.records[i] == b.records[i]
  }

  predicate SharesProvider(b: Matcher, from: nat, key: ReplayKey)
    requires b.Valid()
  {
    exists j :: from <= j < b.limit && Meets(ByProvider, b.records[j], key)
  }

  /** Keys matched in a are matched at the same places in an extension that adds no provider ID of theirs. */
  lemma {:induction false} MatchedAlike(a: Matcher, b: Matcher, keys: seq<ReplayKey>)
    requires a.Valid() && b.Valid() && Keys(keys) && Extends(b, a)
    requires AllMatched(Pass(a, keys).1)
    requires forall i :: 0 <= i < |keys| ==> !SharesProvider(b, a.limit, keys[i])
    ensures Pass(b, keys).1 == Pass(a, keys).1
    ensures Extends(Pass(b, keys).0, Pass(a, keys).0)
    decreases |keys|
  {
    if keys != [] {
      PassUnfolds(a, keys);
      PassUnfolds(b, keys);
      var (a1, _) := ReplayStep(a, keys[0]);
      HitAlike(a, b, keys[0]);
      var (b1, _) := ReplayStep(b, keys[0]);
      forall i | 0 <= i < |keys[1..]|
        ensures !SharesProvider(b1, a1.limit, keys[1..][i])
      {
        assert !SharesProvider(b, a.limit, keys[i + 1]);
        forall j | a1.limit <= j < b1.limit
          ensures !Meets(ByProvider, b1.records[j], keys[1..][i])
        {
          assert b1.records[j] == b.records[j];
        }
      }
      MatchedAlike(a1, b1, keys[1..]);
    }
  }

  lemma HitAlike(a: Matcher, b: Matcher, key: ReplayKey)
    requires a.Valid() && b.Valid() && Extends(b, a)
    requires Hit(a, key).Some? && !SharesProvider(b, a.limit, key)
    ensures Hit(b, key) == Hit(a, key)
  {
  }

  /** No replayed key is matched behind one that was new. */
  predicate NewOnlyAtTheEnd(outcomes: seq<Outcome>) {
    forall i, j :: 0 <= i < j < |outcomes| && outcomes[i] == Missed ==> !outcomes[j].Matched?
  }

  /** What a first pass has to look like for the second to be predictable. */
  predicate PlainPass(m: Matcher, keys: seq<ReplayKey>)
    requires m.Valid() && Keys(keys)
  {
    var (m', out) := Pass(m, keys);
    && m.next == 0 && m.limit == |m.records|
    // no event was dropped because its turn had already ended,
    && (forall i :: 0 <= i < |out| ==> out[i] != InClosedTurn)
    // new events were recorded one by one, without source merging,
    && m'.records == m.records + NewKeys(keys, out)
    // and no new event carries the provider ID of a matched event of its stream.
    && (forall i, j :: 0 <= i < |out| && out[i].Matched? && m.limit <= j < |m'.records| ==>
          !Meets(ByProvider, m'.records[j], keys[i]))
  }

  /** The cursor behind the matched beginning of a pass. */
  function Cursor(m: Matcher, keys: seq<ReplayKey>, n: nat): nat
    requires m.Valid() && Keys(keys) && n <= |keys|
  {
    Pass(m, keys[..n]).0.next
  }

  /** A pass splits at its first unmatched key. */
  lemma PassSplits(m: Matcher, keys: seq<ReplayKey>, n: nat)
    requires m.Valid() && Keys(keys) && n <= |keys| && AllMatched(Pass(m, keys[..n]).1)
    ensures m.next <= Cursor(m, keys, n) <= m.limit
    ensures Pass(m, keys).1 == Pass(m, keys[..n]).1 + Pass(m.(next := Cursor(m, keys, n)), keys[n..]).1
  {
    assert keys == keys[..n] + keys[n..];
    PassConcat(m, keys[..n], keys[n..]);
    MatchesUseUpKeys(m, keys[..n]);
  }

  lemma MatchedBeginning(m: Matcher, keys: seq<ReplayKey>, n: nat)
    requires m.Valid() && Keys(keys) && n <= |keys| && AllMatched(Pass(m, keys).1[..n])
    ensures Pass(m, keys[..n]).1 == Pass(m, keys).1[..n]
  {
    assert keys == keys[..n] + keys[n..];
    PassConcat(m, keys[..n], keys[n..]);
  }

  /** The matched beginning of a pass replays at the same places. */
  lemma HeadReplaysAlike(m: Matcher, keys: seq<ReplayKey>, n: nat)
    requires m.Valid() && Keys(keys) && PlainPass(m, keys) && n == FirstUnmatched(Pass(m, keys).1)
    ensures var again := Rewound(Pass(m, keys).0);
            && Pass(m, keys[..n]).1 == Pass(m, keys).1[..n]
            && Pass(again, keys[..n]).1 == Pass(m, keys[..n]).1
            && Cursor(again, keys, n) == Cursor(m, keys, n)
  {
    var again := Rewound(Pass(m, keys).0);
    MatchedBeginning(m, keys, n);
    forall i | 0 <= i < n
      ensures !SharesProvider(again, m.limit, keys[..n][i])
    {
      assert Pass(m, keys).1[i] == Pass(m, keys).1[..n][i];
    }
    MatchedAlike(m, again, keys[..n]);
  }

  lemma NewKeysBehind(keys: seq<ReplayKey>, out: seq<Outcome>, n: nat)
    requires |keys| == |out| && n <= |keys| && AllMatched(out[..n])
    ensures NewKeys(keys, out) == NewKeys(keys[n..], out[n..])
  {
    NewKeysOfMatched(keys[..n], out[..n]);
    NewKeysConcat(keys[..n], out[..n], keys[n..], out[n..]);
    assert keys == keys[..n] + keys[n..] && out == out[..n] + out[n..];
  }

  /**
   Resume converges: replaying the same history after a pass matches every event of it exactly
   when the new events of the first pass all came at its end.
   */
  lemma ResumeConverges(m: Matcher, keys: seq<ReplayKey>)
    requires m.Valid() && Keys(keys) && PlainPass(m, keys)
    ensures AllMatched(Pass(Rewound(Pass(m, keys).0), keys).1) <==> NewOnlyAtTheEnd(Pass(m, keys).1)
  {
    var out := Pass(m, keys).1;
    var n := FirstUnmatched(out);
    HeadReplaysAlike(m, keys, n);
    PassSplits(m, keys, n);
    PassSplits(Rewound(Pass(m, keys).0), keys, n);
    NewKeysBehind(keys, out, n);
    var mid := Rewound(Pass(m, keys).0).(next := Cursor(m, keys, n));
    assert out[n..] == Pass(m.(next := Cursor(m, keys, n)), keys[n..]).1;
    assert Pass(Rewound(Pass(m, keys).0), keys).1 == out[..n] + Pass(mid, keys[n..]).1;
    TailDecides(m.(next := Cursor(m, keys, n)), mid, keys[n..]);
    AllMatchedConcat(out[..n], Pass(mid, keys[n..]).1);
    NewAtTheEndConcat(out, n);
  }

  lemma AllMatchedConcat(a: seq<Outcome>, b: seq<Outcome>)
    requires AllMatched(a)
    ensures AllMatched(a + b) <==> AllMatched(b)
  {
    assert forall i :: 0 <= i < |b| ==> b[i] == (a + b)[|a| + i];
  }

  lemma NewAtTheEndConcat(out: seq<Outcome>, n: nat)
    requires n == FirstUnmatched(out)
    ensures NewOnlyAtTheEnd(out) <==> NewOnlyAtTheEnd(out[n..])
  {
    assert forall i :: 0 <= i < n ==> out[i] == out[..n][i];
    assert forall i :: n <= i < |out| ==> out[i] == out[n..][i - n];
  }

  /** From the first new event on, the second pass depends on what the first one did. */
  lemma TailDecides(before: Matcher, mid: Matcher, tail: seq<ReplayKey>)
    requires before.Valid() && mid.Valid() && Keys(tail)
    requires before.next == mid.next && before.limit == |before.records| && mid.limit == |mid.records|
    requires mid.records == before.records + NewKeys(tail, Pass(before, tail).1)
    requires forall i :: 0 <= i < |tail| ==> Pass(before, tail).1[i] != InClosedTurn
    requires tail != [] ==> !Pass(before, tail).1[0].Matched?
    ensures AllMatched(Pass(mid, tail).1) <==> NewOnlyAtTheEnd(Pass(before, tail).1)
  {
    var out := Pass(before, tail).1;
    if NewOnlyAtTheEnd(out) {
      forall i | 0 <= i < |tail| ensures out[i] == Missed {
        assert out[0] == Missed;
      }
      TailMatches(before.records, out, mid, tail);
    } else {
      var i, j :| 0 <= i < j < |out| && out[i] == Missed && out[j].Matched?;
      PassUnfolds(before, tail);
      TailFallsShort(before, out, mid, tail, j);
    }
  }

  lemma TailMatches(persisted: seq<ReplayKey>, out: seq<Outcome>, mid: Matcher, tail: seq<ReplayKey>)
    requires mid.Valid() && Keys(tail) && |out| == |tail|
    requires forall i :: 0 <= i < |out| ==> out[i] == Missed
    requires mid.records == persisted + NewKeys(tail, out) && mid.limit == |mid.records|
    requires mid.next <= |persisted|
    ensures AllMatched(Pass(mid, tail).1)
  {
    NewKeysOfMissed(tail, out);
    var at := seq(|tail|, i requires 0 <= i < |tail| => |persisted| + i);
    forall i | 0 <= i < |tail| ensures Anchors(mid, SearchStart(mid.next, at, i), at[i], tail[i]) {
      assert mid.records[at[i]] == tail[i];
      KeysAnchorThemselves(mid, SearchStart(mid.next, at, i), at[i]);
    }
    assert Embeds(mid, mid.next, tail, at);
    GreedyMatchingIsComplete(mid, tail);
  }

  /** A match behind a new event leaves too few recorded keys for the second pass. */
  lemma TailFallsShort(before: Matcher, out: seq<Outcome>, mid: Matcher, tail: seq<ReplayKey>, j: nat)
    requires before.Valid() && mid.Valid() && Keys(tail) && |out| == |tail|
    requires before.next == mid.next && before.limit == |before.records|
    requires mid.records == before.records + NewKeys(tail, out) && mid.limit == |mid.records|
    requires j < |out| && out[j].Matched? && Hit(before, tail[0]) == None
    ensures !AllMatched(Pass(mid, tail).1)
  {
    if AllMatched(Pass(mid, tail).1) {
      MatchedKeysAreNotNew(tail, out, j);
      MatchesNeedRoom(before, mid, tail);
    }
  }

  lemma MatchesNeedRoom(before: Matcher, mid: Matcher, tail: seq<ReplayKey>)
    requires before.Valid() && mid.Valid() && Keys(tail) && tail != [] && Extends(mid, before)
    requires Hit(before, tail[0]) == None && AllMatched(Pass(mid, tail).1)
    ensures before.limit + |tail| <= mid.limit
  {
    PassUnfolds(mid, tail);
    assert Pass(mid, tail).1[0].Matched?;
    NoHitStaysAbove(before, mid, tail[0]);
    MatchesUseUpKeys(ReplayStep(mid, tail[0]).0, tail[1..]);
  }

  lemma NoHitStaysAbove(a: Matcher, b: Matcher, key: ReplayKey)
    requires a.Valid() && b.Valid() && Extends(b, a) && Comparable(key)
    requires Hit(a, key) == None && Hit(b, key).Some?
    ensures a.limit <= Hit(b, key).value
  {
  }

  /** So when the first resume ended with its new events, a second resume forwards nothing. */
  lemma SecondResumeForwardsNothing(m: Matcher, keys: seq<ReplayKey>)
    requires m.Valid() && Keys(keys) && PlainPass(m, keys)
    requires NewOnlyAtTheEnd(Pass(m, keys).1)
    ensures Missed !in Pass(Rewound(Pass(m, keys).0), keys).1
    ensures Pass(Rewound(Pass(m, keys).0), keys).0.records == Pass(m, keys).0.records
  {
    ResumeConverges(m, keys);
    MatchesUseUpKeys(Rewound(Pass(m, keys).0), keys);
  }
}
