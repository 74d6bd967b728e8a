/** What Restore makes of a journal, by its records alone: identity, close, and the turn they describe. */
module RecordLaws {
  import opened Outcomes
  import opened Text
  import opened Host
  import opened Journal
  import opened Sessions
  import opened Turns
  import opened Restoring

  // ---- Identity and close ----

  /** A creation record that names backend and worktree gives the session a new identity. */
  predicate Creates(r: Record) {
    r.event == SessionCreated && r.data.Fields? && r.data.backend != "" && r.data.worktree != ""
  }

  /** The request itself names backend and worktree. */
  predicate Names(request: RestoreRequest) {
    TrimSpace(request.backend) != "" && TrimSpace(request.worktree) != ""
  }

  /** The first k records leave an identity to restore. */
  predicate HasIdentity(request: RestoreRequest, records: seq<Record>, k: nat)
    requires k <= |records|
  {
    Names(request) || exists j :: 0 <= j < k && Creates(records[j])
  }

  /** Record i closes a session that has an identity, and no later record creates it anew. */
  predicate ClosesAt(request: RestoreRequest, records: seq<Record>, i: nat)
    requires i < |records|
  {
    && records[i].event == SessionClosed && HasIdentity(request, records, i)
    && forall k :: i < k < |records| ==> !Creates(records[k])
  }

  lemma AppliedStatus(s: State, r: Record)
    ensures Applied(s, r).status == Closed <==> s.status == Closed || r.event == SessionClosed
    ensures Applied(s, r).id == s.id && Applied(s, r).backend == s.backend && Applied(s, r).limit == s.limit
  {
  }

  lemma ClosesAtLast(request: RestoreRequest, records: seq<Record>, i: nat)
    requires i < |records| - 1
    ensures var init := records[..|records| - 1];
            ClosesAt(request, records, i) <==> ClosesAt(request, init, i) && !Creates(records[|records| - 1])
  {
    var init := records[..|records| - 1];
    IdentityWithin(request, init, records, i);
    assert forall k :: 0 <= k < |init| ==> init[k] == records[k];
  }

  lemma IdentityWithin(request: RestoreRequest, init: seq<Record>, records: seq<Record>, k: nat)
    requires init <= records && k <= |init|
    ensures HasIdentity(request, init, k) <==> HasIdentity(request, records, k)
  {
    assert forall j :: 0 <= j < k ==> init[j] == records[j];
  }

  /** A journal can be restored if and only if the request or one of its records names the session. */
  lemma {:induction false} RestorableExactly(request: RestoreRequest, records: seq<Record>)
    ensures Rebuilt(request, records).Some? <==> HasIdentity(request, records, |records|)
    decreases |records|
  {
    if records != [] {
      var last := |records| - 1;
      RestorableExactly(request, records[..last]);
      IdentityWithin(request, records[..last], records, last);
      if HasIdentity(request, records, |records|) && !HasIdentity(request, records, last) {
        assert Creates(records[last]);
      }
      if HasIdentity(request, records, last) || Creates(records[last]) {
        assert HasIdentity(request, records, |records|);
      }
    }
  }

  /**
   For every journal: the restored session is closed if and only if a close record stands behind the
   identity that is in force, with no later creation.
   */
  lemma {:induction false} ClosedExactly(request: RestoreRequest, records: seq<Record>)
    requires Rebuilt(request, records).Some?
    ensures Rebuilt(request, records).value.status == Closed
            <==> exists i :: 0 <= i < |records| && ClosesAt(request, records, i)
    decreases |records|
  {
    if records != [] {
      var last := |records| - 1;
      var init := records[..last];
      forall i | 0 <= i < last
        ensures ClosesAt(request, records, i) <==> ClosesAt(request, init, i) && !Creates(records[last])
      {
        ClosesAtLast(request, records, i);
      }
      RestorableExactly(request, init);
      IdentityWithin(request, init, records, last);
      if Rebuilt(request, init).Some? {
        ClosedExactly(request, init);
        AppliedStatus(Rebuilt(request, init).value, records[last]);
      }
      ClosedIffClosesAt(request, records);
    }
  }

  /** The last record decides, given what those before it said. */
  lemma ClosedIffClosesAt(request: RestoreRequest, records: seq<Record>)
    requires records != [] && Rebuilt(request, records).Some?
    requires var last := |records| - 1;
             && (forall i :: 0 <= i < last ==>
                   (ClosesAt(request, records, i) <==> ClosesAt(request, records[..last], i) && !Creates(records[last])))
             && (Rebuilt(request, records[..last]).Some? <==> HasIdentity(request, records, last))
             && (Rebuilt(request, records[..last]).Some? ==>
                   && (Rebuilt(request, records[..last]).value.status == Closed
                       <==> exists i :: 0 <= i < last && ClosesAt(request, records[..last], i))
                   && var s := Rebuilt(request, records[..last]).value;
                      (Applied(s, records[last]).status == Closed
                       <==> s.status == Closed || records[last].event == SessionClosed))
    ensures Rebuilt(request, records).value.status == Closed
            <==> exists i :: 0 <= i < |records| && ClosesAt(request, records, i)
  {
    var last := |records| - 1;
    var init := records[..last];
    if Rebuilt(request, records).value.status == Closed {
      if records[last].event == SessionClosed {
        assert ClosesAt(request, records, last);
      } else {
        var i :| 0 <= i < last && ClosesAt(request, init, i);
        assert ClosesAt(request, records, i);
      }
    }
    if exists i :: 0 <= i < |records| && ClosesAt(request, records, i) {
      var i :| 0 <= i < |records| && ClosesAt(request, records, i);
      if i < last {
        assert ClosesAt(request, init, i);
        ClosedNeedsIdentity(request, records, i, last);
      }
    }
  }

  lemma ClosedNeedsIdentity(request: RestoreRequest, records: seq<Record>, i: nat, last: nat)
    requires i < last < |records| && ClosesAt(request, records, i)
    ensures HasIdentity(request, records, last) && !Creates(records[last])
  {
  }

  /** The identity of a restored session is that of the last creation, or the request's when there is none. */
  lemma {:induction false} RestoredIdentity(request: RestoreRequest, records: seq<Record>)
    requires Rebuilt(request, records).Some?
    ensures var s := Rebuilt(request, records).value;
            && s.id == TrimSpace(request.id) && s.limit == request.limit
            && ((forall j :: 0 <= j < |records| ==> !Creates(records[j])) ==> s.backend == TrimSpace(request.backend))
            && (forall j :: 0 <= j < |records| && Creates(records[j])
                            && (forall k :: j < k < |records| ==> !Creates(records[k])) ==>
                              s.backend == records[j].data.backend)
    decreases |records|
  {
    if records != [] {
      var last := |records| - 1;
      var init := records[..last];
      assert forall k :: 0 <= k < last ==> init[k] == records[k];
      if Rebuilt(request, init).Some? {
        RestoredIdentity(request, init);
        AppliedStatus(Rebuilt(request, init).value, records[last]);
      }
    }
  }

  // ---- The turn the records describe ----

  predicate Terminal(r: Record) {
    r.event == AgentYielded || r.event == AgentInterrupted || r.event == AgentTurnFailed || r.event == AgentProcessExited
  }

  predicate StartsTurn(r: Record) {
    r.event == AgentTurnStarted && TrimSpace(r.turnID) != ""
  }

  /** A record behind which turn t is over, or another one is on. */
  predicate Supersedes(r: Record, t: string) {
    || Creates(r) || StartsTurn(r)
    || (Terminal(r) && (r.event == AgentProcessExited || r.turnID == "" || r.turnID == t))
  }

  /** Record i starts a turn of a session that has an identity, and nothing has superseded that turn. */
  predicate TurnAt(request: RestoreRequest, records: seq<Record>, i: nat)
    requires i < |records|
  {
    && StartsTurn(records[i]) && HasIdentity(request, records, i)
    && forall k :: i < k < |records| ==> !Supersedes(records[k], TrimSpace(records[i].turnID))
  }

  lemma AppliedTurn(s: State, r: Record)
    requires Plausible(s) && r.event != SessionCreated
    ensures var s' := Applied(s, r);
            if StartsTurn(r) then s'.active && s'.activeTurnID == TrimSpace(r.turnID)
            else if s.active && Supersedes(r, s.activeTurnID) then !s'.active
            else s'.active == s.active && s'.activeTurnID == s.activeTurnID
  {
  }

  lemma TurnAtLast(request: RestoreRequest, records: seq<Record>, i: nat)
    requires i < |records| - 1
    ensures var init := records[..|records| - 1];
            TurnAt(request, records, i)
            <==> TurnAt(request, init, i) && !Supersedes(records[|records| - 1], TrimSpace(init[i].turnID))
  {
    var init := records[..|records| - 1];
    IdentityWithin(request, init, records, i);
    assert forall k :: 0 <= k < |init| ==> init[k] == records[k];
  }

  /** The turn of a restored session, by the records: turn t, started at i. */
  predicate InTurnOf(s: State, records: seq<Record>, i: nat)
    requires i < |records|
  {
    s.active && s.activeTurnID == TrimSpace(records[i].turnID)
  }

  /**
   For every journal: the restored session is in a turn if and only if a start record stands behind the
   identity in force, with nothing behind it that ends the turn or starts another; and it is that turn.
   */
  lemma {:induction false} TurnExactly(request: RestoreRequest, records: seq<Record>)
    requires Rebuilt(request, records).Some?
    ensures var s := Rebuilt(request, records).value;
            && (s.active <==> exists i :: 0 <= i < |records| && TurnAt(request, records, i))
            && (forall i :: 0 <= i < |records| && TurnAt(request, records, i) ==> InTurnOf(s, records, i))
    decreases |records|
  {
    if records != [] {
      var last := |records| - 1;
      var init := records[..last];
      RestorableExactly(request, init);
      IdentityWithin(request, init, records, last);
      RebuiltIsPlausible(request, init);
      forall i | 0 <= i < last
        ensures TurnAt(request, records, i)
                <==> TurnAt(request, init, i) && !Supersedes(records[last], TrimSpace(init[i].turnID))
      {
        TurnAtLast(request, records, i);
      }
      if Rebuilt(request, init).Some? {
        TurnExactly(request, init);
        if records[last].event != SessionCreated {
          AppliedTurn(Rebuilt(request, init).value, records[last]);
        }
        TurnGoesOn(request, records, Rebuilt(request, init).value);
      } else {
        NoTurnBefore(request, records);
      }
    }
  }

  /** Without an identity before the last record, no record has started a turn. */
  lemma NoTurnBefore(request: RestoreRequest, records: seq<Record>)
    requires records != [] && Rebuilt(request, records[..|records| - 1]) == None
    requires !HasIdentity(request, records, |records| - 1)
    ensures forall i :: 0 <= i < |records| ==> !TurnAt(request, records, i)
    ensures Rebuilt(request, records).Some? ==> !Rebuilt(request, records).value.active
  {
  }

  lemma TurnGoesOn(request: RestoreRequest, records: seq<Record>, s: State)
    requires records != [] && Plausible(s)
    requires var last := |records| - 1;
             var init := records[..last];
             && HasIdentity(request, records, last) && Rebuilt(request, init) == Some(s)
             && (s.active <==> exists i :: 0 <= i < last && TurnAt(request, init, i))
             && (forall i :: 0 <= i < last && TurnAt(request, init, i) ==> InTurnOf(s, init, i))
             && (forall i :: 0 <= i < last ==>
                   (TurnAt(request, records, i)
                    <==> TurnAt(request, init, i) && !Supersedes(records[last], TrimSpace(init[i].turnID))))
             && (records[last].event != SessionCreated ==>
                   var s' := Applied(s, records[last]);
                   if StartsTurn(records[last]) then s'.active && s'.activeTurnID == TrimSpace(records[last].turnID)
                   else if s.active && Supersedes(records[last], s.activeTurnID) then !s'.active
                   else s'.active == s.active && s'.activeTurnID == s.activeTurnID)
    ensures var s' := Rebuilt(request, records).value;
            && (s'.active <==> exists i :: 0 <= i < |records| && TurnAt(request, records, i))
            && (forall i :: 0 <= i < |records| && TurnAt(request, records, i) ==> InTurnOf(s', records, i))
  {
    var last := |records| - 1;
    var init := records[..last];
    if StartsTurn(records[last]) {
      assert TurnAt(request, records, last);
    } else if s.active {
      var i :| 0 <= i < last && TurnAt(request, init, i);
      assert InTurnOf(s, init, i);
      assert TurnAt(request, records, i) <==> !Supersedes(records[last], s.activeTurnID);
      forall k | 0 <= k < last && TurnAt(request, records, k)
        ensures TurnAt(request, init, k) && InTurnOf(s, init, k)
      {
      }
    }
  }
}
