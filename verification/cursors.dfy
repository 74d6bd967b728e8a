/** Which records a cursor read or a tail returns. */
module Cursors {
  import opened Outcomes
  import opened Journal
  import opened JournalFile
  import opened Durable
  import opened Crashes

  /** A read returns the records behind the exclusive cursor and up to the inclusive one, and no other. */
  lemma {:induction false} WindowMembers(records: seq<Record>, after: nat, through: nat)
    ensures forall r :: r in Window(records, after, through)
                        <==> r in records && after < r.sequence && (through == 0 || r.sequence <= through)
  {
    if records != [] {
      var last := |records| - 1;
      WindowMembers(records[..last], after, through);
      assert records == records[..last] + [records[last]];
    }
  }

  /** And it returns them in the order of the file. */
  lemma {:induction false} WindowInOrder(records: seq<Record>, after: nat, through: nat)
    requires Increasing(records)
    ensures Increasing(Window(records, after, through))
  {
    if records != [] {
      var last := |records| - 1;
      var init := records[..last];
      WindowInOrder(init, after, through);
      WindowMembers(init, after, through);
      var window := Window(init, after, through);
      forall i | 0 <= i < |window|
        ensures window[i].sequence < records[last].sequence
      {
        assert window[i] in init;
      }
    }
  }

  function Min(a: nat, b: nat): nat {
    if a <= b then a else b
  }

  /** In a journal numbered from 1, a read is the slice between its cursors. */
  lemma {:induction false} WindowIsSlice(records: seq<Record>, after: nat, through: nat)
    requires Numbered(records) && (through == 0 || after <= through)
    ensures var end := if through == 0 then |records| else Min(through, |records|);
            Window(records, after, through) == records[Min(after, end)..end]
  {
    if records != [] {
      var last := |records| - 1;
      var init := records[..last];
      WindowIsSlice(init, after, through);
      assert records[last].sequence == |records|;
      if InWindow(records[last], after, through) {
        SliceGrows(records, after);
      } else if through != 0 && through <= last {
        SliceStays(records, Min(after, through), through);
      } else {
        assert init[last..last] == [] && records[|records|..|records|] == [];
      }
    }
  }

  lemma SliceGrows<T>(records: seq<T>, after: nat)
    requires after < |records|
    ensures var last := |records| - 1;
            records[..last][after..last] + [records[last]] == records[after..|records|]
  {
  }

  lemma SliceStays<T>(records: seq<T>, lo: nat, hi: nat)
    requires lo <= hi < |records|
    ensures records[..|records| - 1][lo..hi] == records[lo..hi]
  {
  }

  lemma SliceOfReading(cfg: Settings, file: seq<byte>, all: seq<Record>, after: nat, through: nat)
    requires ReadAll(cfg.codec, cfg.schema, cfg.session, file) == Ok(all) && Numbered(all)
    requires through == 0 || after <= through
    ensures var end := if through == 0 then |all| else Min(through, |all|);
            Reading(cfg.codec, cfg.schema, cfg.session, file, after, through, 0) == Ok(all[Min(after, end)..end])
  {
    WindowIsSlice(all, after, through);
  }

  lemma TailOfReading(cfg: Settings, file: seq<byte>, all: seq<Record>, n: nat)
    requires ReadAll(cfg.codec, cfg.schema, cfg.session, file) == Ok(all) && Numbered(all) && 0 < n
    ensures Reading(cfg.codec, cfg.schema, cfg.session, file, 0, 0, n) == Ok(all[|all| - Min(n, |all|)..])
  {
    NumberedSequences(all);
    assert all[0..] == all;
  }

  /** What Read(after, through) and Tail(n) return of the given records. */
  predicate Slices(cfg: Settings, s: Store, all: seq<Record>, after: nat, through: nat, n: nat) {
    var end := if through == 0 then |all| else Min(through, |all|);
    && ReadFrom(cfg, s, after, through, 0) == Ok(all[Min(after, end)..end])
    && ReadFrom(cfg, s, 0, 0, n) == Ok(all[|all| - Min(n, |all|)..])
  }

  lemma HeldRecordsAreSliced(cfg: Settings, s: Store, all: seq<Record>, after: nat, through: nat, n: nat)
    requires Holds(cfg, s, all) && s.created && (through == 0 || after <= through) && 0 < n
    ensures Slices(cfg, s, all, after, through, n)
  {
    SliceOfReading(cfg, s.file, all, after, through);
    TailOfReading(cfg, s.file, all, n);
  }

  /**
   Over any run of a store, crashes and restarts included: Read(after, through) returns the slice of the
   landed records between its cursors, where zero leaves a side open, and Tail(n) returns the last n.
   */
  lemma ReadsAreSlices(cfg: Settings, ops: seq<Op>, after: nat, through: nat, n: nat)
    requires Sound(cfg) && AllAddressed(cfg, ops) && Run(cfg, EMPTY, ops).0.created
    requires (through == 0 || after <= through) && 0 < n
    ensures var (s, reports) := Run(cfg, EMPTY, ops); Slices(cfg, s, LandedIn(reports), after, through, n)
  {
    var (s, reports) := Run(cfg, EMPTY, ops);
    JournalHolds(cfg, ops);
    HeldRecordsAreSliced(cfg, s, LandedIn(reports), after, through, n);
  }
}
