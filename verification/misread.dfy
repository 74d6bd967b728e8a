/** A run in which journal and session part: the failure of a submission that outlived its process. */
module Misread {
  import opened Outcomes
  import opened Text
  import opened Host
  import opened Journal
  import opened Turns
  import opened Machines
  import opened Provider
  import opened Restoring
  import opened Refines

  /** An open session that agrees with its journal. */
  predicate Sane(request: RestoreRequest, w: World) {
    Agrees(Rebuilt(request, w.journal), w.m.s) && Coupled(w.m.s) && Open(w.m.s) && !w.m.s.blocked
  }

  /** A traced move keeps a session sane. */
  lemma TracedMove(request: RestoreRequest, w: World, move: Move)
    requires Sane(request, w) && Ordinary(w, move) && Traced(w, move)
    requires Open(Provider.Moved(w, move).m.s) && !Provider.Moved(w, move).m.s.blocked
    ensures Sane(request, Provider.Moved(w, move))
  {
    MoveAgrees(request, w, move);
    MoveKeepsCoupling(w, move);
  }

  lemma SendMove(request: RestoreRequest, w: World, r: Request)
    requires Sane(request, w) && Idle(w.m.s) && !EmptyRequest(r)
    ensures var send := Calls(Send(r, false));
            var w' := Provider.Moved(w, send);
            && Contract(w, send) && Ordinary(w, send) && Sane(request, w')
            && w'.m.s.lastTurnID == w.m.s.lastTurnID && w'.reserved == w.reserved + multiset{false}
  {
    SendEffect(w, r);
    TracedMove(request, w, Calls(Send(r, false)));
  }

  lemma SendEffect(w: World, r: Request)
    requires Idle(w.m.s) && !w.m.s.blocked && !EmptyRequest(r)
    ensures var w' := Provider.Moved(w, Calls(Send(r, false)));
            && w'.m.s == Reserved(w.m.s) && w'.reserved == w.reserved + multiset{false}
  {
  }

  lemma ExitMove(request: RestoreRequest, w: World)
    requires Sane(request, w)
    ensures var exit := ProcessExits(Bare(ProcessExited, ""));
            var w' := Provider.Moved(w, exit);
            && Contract(w, exit) && Ordinary(w, exit) && Sane(request, w') && Idle(w'.m.s)
            && w'.m.s.lastTurnID == w.m.s.lastTurnID && w'.reserved == w.reserved
  {
    ExitEffect(w);
    TracedMove(request, w, ProcessExits(Bare(ProcessExited, "")));
  }

  lemma ExitEffect(w: World)
    ensures var w' := Provider.Moved(w, ProcessExits(Bare(ProcessExited, "")));
            w'.m.s == Ended(w.m.s) && w'.reserved == w.reserved
  {
  }

  lemma StartMove(request: RestoreRequest, w: World, t: string)
    requires Sane(request, w) && false in w.reserved && t != "" && TrimSpace(t) == t
    ensures var start := TurnStarts(false, Bare(TurnStarted, t));
            var w' := Provider.Moved(w, start);
            && Contract(w, start) && Ordinary(w, start) && Sane(request, w')
            && w'.m.s.active && w'.m.s.activeTurnID == t
            && w'.m.s.lastTurnID == w.m.s.lastTurnID && w'.reserved == w.reserved - multiset{false}
  {
    StartEffect(w, t);
    TracedMove(request, w, TurnStarts(false, Bare(TurnStarted, t)));
  }

  lemma StartEffect(w: World, t: string)
    requires t != ""
    ensures var w' := Provider.Moved(w, TurnStarts(false, Bare(TurnStarted, t)));
            && (Open(w'.m.s) <==> Open(w.m.s)) && w'.m.s.blocked == w.m.s.blocked
            && w'.m.s.active && w'.m.s.activeTurnID == t
            && w'.m.s.lastTurnID == w.m.s.lastTurnID && w'.reserved == w.reserved - multiset{false}
  {
  }

  /** A move the adapter contract and the callers allow, and where it leads. */
  predicate Leads(w: World, move: Move, w': World) {
    Contract(w, move) && Ordinary(w, move) && w' == Provider.Moved(w, move)
  }

  predicate LeadsOn(w: World, moves: seq<Move>, w': World) {
    Contracted(w, moves) && AllOrdinary(w, moves) && w' == Play(w, moves)
  }

  lemma OneMoreLeads(w: World, move: Move, w1: World, rest: seq<Move>, w': World)
    requires Leads(w, move, w1) && LeadsOn(w1, rest, w')
    ensures LeadsOn(w, [move] + rest, w')
  {
    assert ([move] + rest)[1..] == rest;
  }

  lemma OneMoveLeads(w: World, move: Move, w': World)
    requires Leads(w, move, w')
    ensures LeadsOn(w, [move], w')
  {
    assert [move][1..] == [];
  }

  function Misreading(r: Request, t: string): seq<Move> {
    [Calls(Send(r, false))] +
    ([ProcessExits(Bare(ProcessExited, ""))] +
     ([Calls(Send(r, false))] + ([TurnStarts(false, Bare(TurnStarted, t))] + [SubmissionFails(false)])))
  }

  /** The failure ends the live turn, and the journal takes it for the end of another one. */
  lemma FailureMove(request: RestoreRequest, w: World) returns (w': World)
    requires Sane(request, w) && w.m.s.active && w.m.s.lastTurnID !in {"", w.m.s.activeTurnID}
    requires false in w.reserved
    ensures LeadsOn(w, [SubmissionFails(false)], w') && StillDescribes(request, w', w.m.s.activeTurnID)
  {
    var fails := SubmissionFails(false);
    w' := Provider.Moved(w, fails);
    MoveSteps(w, fails);
    FailureEnds(w.m.s);
    FailureIsSkipped(request, w);
    OneMoveLeads(w, fails, w');
  }

  lemma FailureIsSkipped(request: RestoreRequest, w: World)
    requires Sane(request, w) && w.m.s.active && w.m.s.lastTurnID !in {"", w.m.s.activeTurnID}
    ensures Rebuilt(request, Provider.Moved(w, SubmissionFails(false)).journal) == Rebuilt(request, w.journal)
  {
    var fails := SubmissionFails(false);
    MoveAppends(w, fails);
    RebuiltAfter(request, w.journal, MoveRecords(w, fails));
    var cleared := SubmissionCleared(w.m.s);
    FailureRecord(cleared);
    EndRecordApplies(Rebuilt(request, w.journal).value, Translate(Stamped(cleared, SUBMISSION_FAILURE)).value);
  }

  /** The last two moves, from a session whose turn is reserved. */
  lemma StartThenFailure(request: RestoreRequest, w: World, t: string) returns (w': World)
    requires Sane(request, w) && t != "" && TrimSpace(t) == t && w.m.s.lastTurnID !in {"", t}
    requires false in w.reserved && false in w.reserved - multiset{false}
    ensures LeadsOn(w, [TurnStarts(false, Bare(TurnStarted, t))] + [SubmissionFails(false)], w')
    ensures StillDescribes(request, w', t)
  {
    var start := TurnStarts(false, Bare(TurnStarted, t));
    StartMove(request, w, t);
    var w1 := Provider.Moved(w, start);
    w' := FailureMove(request, w1);
    OneMoreLeads(w, start, w1, [SubmissionFails(false)], w');
  }

  /** The live session is idle, and a restore would find turn t. */
  predicate StillDescribes(request: RestoreRequest, w: World, t: string) {
    && Open(w.m.s) && !w.m.s.active
    && Rebuilt(request, w.journal).Some? && Rebuilt(request, w.journal).value.active
    && Rebuilt(request, w.journal).value.activeTurnID == t
  }

  /**
   The provider exits during a submission, the next turn starts, and then the first submission fails: its
   failure is journaled under the ID of the turn before both. The live session has ended its turn, and
   the journal still describes it.
   */
  lemma LateFailureIsMisread(request: RestoreRequest, w: World, r: Request, t: string)
    requires Sane(request, w) && Idle(w.m.s) && !EmptyRequest(r)
    requires t != "" && TrimSpace(t) == t && w.m.s.lastTurnID !in {"", t}
    ensures Contracted(w, Misreading(r, t)) && AllOrdinary(w, Misreading(r, t))
    ensures StillDescribes(request, Play(w, Misreading(r, t)), t)
  {
    var send, exit := Calls(Send(r, false)), ProcessExits(Bare(ProcessExited, ""));
    SendMove(request, w, r);
    var w1 := Provider.Moved(w, send);
    ExitMove(request, w1);
    var w2 := Provider.Moved(w1, exit);
    SendMove(request, w2, r);
    var w3 := Provider.Moved(w2, send);
    var w' := StartThenFailure(request, w3, t);
    var last := [TurnStarts(false, Bare(TurnStarted, t))] + [SubmissionFails(false)];
    OneMoreLeads(w2, send, w3, last, w');
    OneMoreLeads(w1, exit, w2, [send] + last, w');
    OneMoreLeads(w, send, w1, [exit] + ([send] + last), w');
  }

  /** Such a run from the creation of a session, whose provider has had turn `before`. */
  lemma RefinementCanFail(request: RestoreRequest, id: string, backend: string, limit: nat, worktree: string,
                          r: Request, before: string, t: string)
    requires backend != "" && worktree != "" && !EmptyRequest(r)
    requires t != "" && TrimSpace(t) == t && before !in {"", t}
    ensures var w := Start(id, backend, limit, worktree);
            var moves := [Calls(Restart(before))] + Misreading(r, t);
            && Contracted(w, moves) && AllOrdinary(w, moves) && StillDescribes(request, Play(w, moves), t)
            && !AllTraced(w, moves)
  {
    var w := Start(id, backend, limit, worktree);
    var restart := Calls(Restart(before));
    var moves := [restart] + Misreading(r, t);
    StartAgreesWithItsJournal(request, id, backend, limit, worktree);
    TracedMove(request, w, restart);
    var w1 := Provider.Moved(w, restart);
    LateFailureIsMisread(request, w1, r, t);
    OneMoreLeads(w, restart, w1, Misreading(r, t), Play(w1, Misreading(r, t)));
    RestoreRefinesExactly(request, id, backend, limit, worktree, moves);
    if AllTraced(w, moves) {
      AgreesAtTheEnd(request, w, moves);
      assert false;
    }
  }
}
