/** What the replay index keeps of a journal, and which turns it knows to have ended. */
module Recording {
  import opened Outcomes
  import opened Text
  import opened Host
  import opened Journal
  import opened Replay

  /** The last key of the index is an earlier snapshot of the same source. */
  predicate Continues(m: Matcher, key: ReplayKey) {
    && m.records != [] && key.source != ""
    && var last := m.records[|m.records| - 1];
       && last.source == key.source && last.event == key.event
       && (last.session == "" || key.session == "" || last.session == key.session)
       && (last.conversation == "" || key.conversation == "" || last.conversation == key.conversation)
       && (last.thread == "" || key.thread == "" || last.thread == key.thread)
  }

  predicate EndsItsTurn(event: EventName) {
    event == AgentYielded || event == AgentInterrupted || event == AgentTurnFailed || event == AgentProcessExited
  }

  /** A recorded key is the last one of the index, behind the others or in place of what it continues. */
  lemma RecordingExactly(m: Matcher, key: ReplayKey)
    ensures var m' := Appended(m, key);
            && m'.records != [] && m'.records[|m'.records| - 1] == key
            && m'.records[..|m'.records| - 1]
               == (if Continues(m, key) then m.records[..|m.records| - 1] else m.records)
            && m'.completed
               == (if !Continues(m, key) && EndsItsTurn(key.event) && key.turn != ""
                   then m.completed + [ReplayTurn(key.session, key.conversation, key.thread, key.turn)]
                   else m.completed)
            && m'.next == m.next && m'.limit == m.limit
  {
  }

  const NOTHING := Matcher([], [], 0, 0)

  /** Record i ends the turn of a replayed key, and is not taken for a new version of the record before it. */
  predicate EndsTurnOf(records: seq<Record>, i: nat, key: ReplayKey)
    requires i < |records|
  {
    && records[i].data.Fields? && EndsItsTurn(records[i].event)
    && TrimSpace(records[i].turnID) == key.turn != ""
    && ScopeMatches(TrimSpace(records[i].sessionID), key.session)
    && ScopeMatches(TrimSpace(records[i].conversation), key.conversation)
    && ScopeMatches(TrimSpace(records[i].data.threadID), key.thread)
    && KeyFor(records[i]).Some? && !Continues(RecordedAll(NOTHING, records[..i]), KeyFor(records[i]).value)
  }

  lemma RecordEndsTurn(m: Matcher, r: Record, key: ReplayKey)
    ensures OfEndedTurn(Recorded(m, r), key)
            <==> OfEndedTurn(m, key) ||
                 (&& r.data.Fields? && EndsItsTurn(r.event) && TrimSpace(r.turnID) == key.turn != ""
                  && ScopeMatches(TrimSpace(r.sessionID), key.session)
                  && ScopeMatches(TrimSpace(r.conversation), key.conversation)
                  && ScopeMatches(TrimSpace(r.data.threadID), key.thread)
                  && KeyFor(r).Some? && !Continues(m, KeyFor(r).value))
  {
    if KeyFor(r).Some? {
      var k := KeyFor(r).value;
      KeyFields(r);
      RecordingExactly(m, k);
      CompletedMembers(m, k, key);
    }
  }

  lemma KeyFields(r: Record)
    requires KeyFor(r).Some?
    ensures var k := KeyFor(r).value;
            && r.data.Fields? && k.event == r.event && k.turn == TrimSpace(r.turnID)
            && k.session == TrimSpace(r.sessionID) && k.conversation == TrimSpace(r.conversation)
            && k.thread == TrimSpace(r.data.threadID)
  {
  }

  lemma CompletedMembers(m: Matcher, k: ReplayKey, key: ReplayKey)
    ensures OfEndedTurn(Appended(m, k), key)
            <==> OfEndedTurn(m, key) ||
                 (&& !Continues(m, k) && EndsItsTurn(k.event) && k.turn != "" && key.turn != ""
                  && EndedTurn(ReplayTurn(k.session, k.conversation, k.thread, k.turn), key))
  {
    RecordingExactly(m, k);
    var turn := ReplayTurn(k.session, k.conversation, k.thread, k.turn);
    var m' := Appended(m, k);
    if m'.completed != m.completed {
      assert m'.completed == m.completed + [turn];
      assert forall t :: t in m'.completed <==> t in m.completed || t == turn;
      if EndedTurn(turn, key) {
        assert turn in m'.completed;
      }
    }
    assert forall t :: t in m.completed ==> t in m'.completed;
  }

  /** A replayed key is of an ended turn if and only if the journal has a record that ended it. */
  lemma {:induction false} EndedTurnsAreJournaled(records: seq<Record>, key: ReplayKey)
    ensures OfEndedTurn(RecordedAll(NOTHING, records), key)
            <==> exists i :: 0 <= i < |records| && EndsTurnOf(records, i, key)
    decreases |records|
  {
    if records != [] {
      var last := |records| - 1;
      var init := records[..last];
      EndedTurnsAreJournaled(init, key);
      RecordEndsTurn(RecordedAll(NOTHING, init), records[last], key);
      forall i | 0 <= i < last
        ensures EndsTurnOf(records, i, key) <==> EndsTurnOf(init, i, key)
      {
        assert init[..i] == records[..i] && init[i] == records[i];
      }
      if OfEndedTurn(RecordedAll(NOTHING, init), key) {
        var i :| 0 <= i < last && EndsTurnOf(init, i, key);
        assert EndsTurnOf(records, i, key);
      }
      assert OfEndedTurn(RecordedAll(NOTHING, records), key) && !OfEndedTurn(RecordedAll(NOTHING, init), key) ==>
          EndsTurnOf(records, last, key);
    }
  }

  /** So it is for the matcher of a new host. */
  lemma IndexedEndedTurns(records: seq<Record>, key: ReplayKey)
    ensures OfEndedTurn(Indexed(records), key) <==> exists i :: 0 <= i < |records| && EndsTurnOf(records, i, key)
  {
    EndedTurnsAreJournaled(records, key);
  }
}
