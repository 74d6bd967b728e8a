/** A run, its journal file and the restored session together. */
module Stored {
  import opened Outcomes
  import opened Text
  import opened Host
  import opened Journal
  import opened Durable
  import opened Crashes
  import Replay
  import Turns
  import P = Provider
  import R = Restoring
  import F = Refines
  import H = Hosts

  /** What Restore reads of a record; the envelope is the store's. */
  predicate SameContent(a: Record, b: Record) {
    a.event == b.event && a.turnID == b.turnID && a.data == b.data
  }

  predicate SameContents(a: seq<Record>, b: seq<Record>) {
    |a| == |b| && forall i :: 0 <= i < |a| ==> SameContent(a[i], b[i])
  }

  lemma {:induction false} EnvelopesDoNotMatter(request: R.RestoreRequest, a: seq<Record>, b: seq<Record>)
    requires SameContents(a, b)
    ensures R.Rebuilt(request, a) == R.Rebuilt(request, b)
    decreases |a|
  {
    if a != [] {
      EnvelopesDoNotMatter(request, a[..|a| - 1], b[..|b| - 1]);
      assert SameContent(a[|a| - 1], b[|b| - 1]);
      NotedReadsContent(request, R.Rebuilt(request, a[..|a| - 1]), a[|a| - 1], b[|b| - 1]);
    }
  }

  lemma NotedReadsContent(request: R.RestoreRequest, s: Option<Turns.State>, a: Record, b: Record)
    requires SameContent(a, b)
    ensures R.Noted(request, s, a) == R.Noted(request, s, b)
  {
  }

  /** The records a store was asked to append, in order. */
  function Asked(ops: seq<Op>): seq<Record> {
    if ops == [] then []
    else (if ops[0].Append? then [ops[0].attempt.record] else []) + Asked(ops[1..])
  }

  lemma LandingKeepsContent(cfg: Settings, s: Store, a: Attempt)
    requires cfg.reducer == None && a.record.data.Fields? && Landing(cfg, s, a).Some?
    ensures SameContent(Landing(cfg, s, a).value, a.record)
  {
  }

  /** The store's envelope does not touch what a record is compared by in a replay. */
  lemma EnvelopesKeepKeys(cfg: Settings, s: Store, a: Attempt)
    requires cfg.reducer == None && a.record.data.Fields? && Landing(cfg, s, a).Some?
    ensures Replay.KeyFor(Landing(cfg, s, a).value) == Replay.KeyFor(a.record)
  {
    LandingKeepsScope(cfg, s, a);
    LandingKeepsContent(cfg, s, a);
    TrimIsIdempotent(a.record.sessionID);
    KeysReadScopeAndContent(Landing(cfg, s, a).value, a.record);
  }

  lemma LandingKeepsScope(cfg: Settings, s: Store, a: Attempt)
    requires cfg.reducer == None && Landing(cfg, s, a).Some?
    ensures var r := Landing(cfg, s, a).value;
            && r.sessionID == TrimSpace(a.record.sessionID)
            && r.conversation == a.record.conversation && r.sourceEventID == a.record.sourceEventID
  {
  }

  lemma KeysReadScopeAndContent(a: Record, b: Record)
    requires SameContent(a, b) && a.conversation == b.conversation && a.sourceEventID == b.sourceEventID
    requires TrimSpace(a.sessionID) == TrimSpace(b.sessionID)
    ensures Replay.KeyFor(a) == Replay.KeyFor(b)
  {
  }

  predicate AllReadable(records: seq<Record>) {
    forall i :: 0 <= i < |records| ==> records[i].data.Fields?
  }

  lemma {:induction false} LandedIsAsked(cfg: Settings, s: Store, ops: seq<Op>)
    requires cfg.reducer == None && AllReadable(Asked(ops))
    requires Honest(Run(cfg, s, ops).1) && AllAcknowledged(ops, Run(cfg, s, ops).1)
    ensures SameContents(LandedIn(Run(cfg, s, ops).1), Asked(ops))
    decreases |ops|
  {
    if ops != [] {
      var (s1, report) := OpApplied(cfg, s, ops[0]);
      var reports := Run(cfg, s1, ops[1..]).1;
      var all := Run(cfg, s, ops).1;
      assert all == [report] + reports && all[0] == report;
      LandedFirst(report, reports, []);
      assert forall i :: 0 <= i < |reports| ==> reports[i] == all[i + 1] && ops[1..][i] == ops[i + 1];
      AskedTail(ops);
      LandedIsAsked(cfg, s1, ops[1..]);
      if ops[0].Append? {
        assert all[0].acknowledged.Some?;
        assert Asked(ops)[0] == ops[0].attempt.record;
        LandingKeepsContent(cfg, s, ops[0].attempt);
      }
      assert all[1..] == reports;
    }
  }

  lemma AskedTail(ops: seq<Op>)
    requires ops != [] && AllReadable(Asked(ops))
    ensures AllReadable(Asked(ops[1..]))
  {
    var shift := if ops[0].Append? then 1 else 0;
    assert forall i :: 0 <= i < |Asked(ops[1..])| ==> Asked(ops[1..])[i] == Asked(ops)[i + shift];
  }

  lemma {:induction false} RunJournalIsReadable(w: P.World, moves: seq<P.Move>)
    requires AllReadable(w.journal)
    ensures AllReadable(P.Play(w, moves).journal)
    decreases |moves|
  {
    if moves != [] {
      F.MoveAppends(w, moves[0]);
      MoveRecordsAreReadable(w, moves[0]);
      RunJournalIsReadable(P.Moved(w, moves[0]), moves[1..]);
    }
  }

  lemma MoveRecordsAreReadable(w: P.World, move: P.Move)
    ensures AllReadable(F.MoveRecords(w, move))
  {
  }

  lemma HostJournalIsReadable(request: R.RestoreRequest, w: P.World)
    requires AllReadable(w.journal)
    ensures AllReadable(H.Hosted(request, w).journal)
  {
    var rebuilt := R.Rebuilt(request, w.journal);
    if rebuilt.Some? {
      TranslationsAreReadable(R.Reconciled(rebuilt.value).1);
    }
  }

  lemma {:induction false} TranslationsAreReadable(events: seq<Event>)
    ensures AllReadable(TranslateAll(events))
  {
    if events != [] {
      TranslationsAreReadable(events[1..]);
    }
  }

  lemma {:induction false} LivesJournalIsReadable(request: R.RestoreRequest, w: P.World, lives: seq<seq<P.Move>>)
    requires AllReadable(w.journal)
    ensures AllReadable(H.Lived(request, w, lives).journal)
    decreases |lives|
  {
    if lives != [] {
      HostJournalIsReadable(request, w);
      RunJournalIsReadable(H.Hosted(request, w), lives[0]);
      LivesJournalIsReadable(request, P.Play(H.Hosted(request, w), lives[0]), lives[1..]);
    }
  }

  /** A journal that the store acknowledged in full is read back from the file, apart from its envelopes. */
  lemma JournalIsReadBack(cfg: Settings, ops: seq<Op>, request: R.RestoreRequest)
    requires Sound(cfg) && cfg.reducer == None && AllAddressed(cfg, ops)
    requires AllReadable(Asked(ops)) && Asked(ops) != [] && AllAcknowledged(ops, Run(cfg, EMPTY, ops).1)
    ensures var read := ReadFrom(cfg, Run(cfg, EMPTY, ops).0, 0, 0, 0);
            read.Ok? && R.Rebuilt(request, read.value) == R.Rebuilt(request, Asked(ops))
  {
    AcknowledgedRecordsSurvive(cfg, ops);
    LandedIsAsked(cfg, EMPTY, ops);
    EnvelopesDoNotMatter(request, LandedIn(Run(cfg, EMPTY, ops).1), Asked(ops));
  }

  lemma {:induction false} JournalsOnlyGrow(request: R.RestoreRequest, w: P.World, lives: seq<seq<P.Move>>)
    requires w.journal != []
    ensures H.Lived(request, w, lives).journal != []
    decreases |lives|
  {
    if lives != [] {
      RunsOnlyGrow(H.Hosted(request, w), lives[0]);
      JournalsOnlyGrow(request, P.Play(H.Hosted(request, w), lives[0]), lives[1..]);
    }
  }

  lemma {:induction false} RunsOnlyGrow(w: P.World, moves: seq<P.Move>)
    requires w.journal != []
    ensures P.Play(w, moves).journal != []
    decreases |moves|
  {
    if moves != [] {
      F.MoveAppends(w, moves[0]);
      RunsOnlyGrow(P.Moved(w, moves[0]), moves[1..]);
    }
  }

  /**
   From live state to disk and back: if every record of a history was acknowledged by the store, with
   restarts of the store and of the host in between, then the session restored from the journal file
   agrees with the live session at its end.
   */
  lemma RunSurvivesOnDisk(cfg: Settings, ops: seq<Op>, request: R.RestoreRequest, id: string, backend: string,
                          limit: nat, worktree: string, moves: seq<P.Move>, lives: seq<seq<P.Move>>)
    requires Sound(cfg) && cfg.reducer == None && AllAddressed(cfg, ops)
    requires backend != "" && worktree != ""
    requires H.HistoryTraced(request, id, backend, limit, worktree, moves, lives)
    requires Asked(ops) == H.History(request, id, backend, limit, worktree, moves, lives).journal
    requires AllAcknowledged(ops, Run(cfg, EMPTY, ops).1)
    ensures var read := ReadFrom(cfg, Run(cfg, EMPTY, ops).0, 0, 0, 0);
            read.Ok? && F.Agrees(R.Rebuilt(request, read.value),
                                 H.History(request, id, backend, limit, worktree, moves, lives).m.s)
  {
    var start := P.Start(id, backend, limit, worktree);
    RunJournalIsReadable(start, moves);
    LivesJournalIsReadable(request, P.Play(start, moves), lives);
    RunsOnlyGrow(start, moves);
    JournalsOnlyGrow(request, P.Play(start, moves), lives);
    JournalIsReadBack(cfg, ops, request);
    H.RestoreRefinesLive(request, id, backend, limit, worktree, moves, lives);
  }
}
