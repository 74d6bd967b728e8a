/** Under which name a live event is journaled, and by which content a replay compares it. */
module Names {
  import opened Outcomes
  import opened Text
  import opened Host
  import opened Journal
  import opened Replay

  /** What becomes of an event: its record's name, and the content that a replay compares, if it does. */
  datatype Trace = Trace(name: EventName, compared: Option<string>)

  predicate Journaled(e: Event, trace: Trace) {
    && Translate(e).Some?
    && var r := Translate(e).value;
       && r.event == trace.name
       && r.sessionID == e.sessionID && r.turnID == e.turnID && r.sourceEventID == e.sourceEventID
       && r.data.Fields? && r.data.interaction == e.interaction && r.data.response == e.response
       && match trace.compared
          case None => KeyFor(r) == None
          case Some(content) =>
            var providerID := TrimSpace(e.data.providerID);
            && (KeyFor(r) == None <==> content == "" && providerID == "")
            && (KeyFor(r).Some? ==>
                  var key := KeyFor(r).value;
                  && key.event == trace.name && key.content == content && key.providerID == providerID
                  && key.session == TrimSpace(e.sessionID) && key.turn == TrimSpace(e.turnID)
                  && key.conversation == TrimSpace("")
                  && key.thread == TrimSpace(if e.backend != "" then e.threadID else "")
                  && key.source == TrimSpace(e.sourceEventID))
  }

  predicate Quiet(e: Event) {
    Translate(e) == None
  }

  lemma TracedAs(e: Event, name: EventName, compared: Option<string>)
    requires TranslatedEventName(e) == Some(name) && Content(Translate(e).value) == compared
    ensures Journaled(e, Trace(name, compared))
  {
  }

  /** Messages are journaled by role and compared by their trimmed text. */
  lemma MessagesAreTraced(e: Event)
    requires e.typ == Message
    ensures ToLower(TrimSpace(e.role)) == "user" ==> Journaled(e, Trace(UserMessage, Some(TrimSpace(e.message))))
    ensures ToLower(TrimSpace(e.role)) in {"assistant", "agent"} ==>
              Journaled(e, Trace(AgentMessage, Some(TrimSpace(e.message))))
    ensures ToLower(TrimSpace(e.role)) !in {"user", "assistant", "agent"} ==> Quiet(e)
  {
    assert "user"[0] != "assistant"[0] && "user"[0] != "agent"[0];
    if ToLower(TrimSpace(e.role)) == "user" {
      TracedAs(e, UserMessage, Some(TrimSpace(e.message)));
    } else if ToLower(TrimSpace(e.role)) in {"assistant", "agent"} {
      TracedAs(e, AgentMessage, Some(TrimSpace(e.message)));
    }
  }

  /** The events of a turn's life are compared by the turn. */
  lemma TurnsAreTraced(e: Event)
    ensures e.typ == TurnStarted ==> Journaled(e, Trace(AgentTurnStarted, Some(TrimSpace(e.turnID))))
    ensures e.typ == TurnComplete ==> Journaled(e, Trace(AgentYielded, Some(TrimSpace(e.turnID))))
    ensures e.typ == TurnFailed ==> Journaled(e, Trace(AgentTurnFailed, Some(TrimSpace(e.turnID))))
    ensures e.typ == ProcessExited ==> Journaled(e, Trace(AgentProcessExited, Some(TrimSpace(e.turnID))))
  {
    var turn := Some(TrimSpace(e.turnID));
    if e.typ == TurnStarted {
      TracedAs(e, AgentTurnStarted, turn);
    } else if e.typ == TurnComplete {
      TracedAs(e, AgentYielded, turn);
    } else if e.typ == TurnFailed {
      TracedAs(e, AgentTurnFailed, turn);
    } else if e.typ == ProcessExited {
      TracedAs(e, AgentProcessExited, turn);
    }
  }

  /** Plans are compared by their text, to-do lists, file changes and permissions by what they list. */
  lemma ContentsAreTraced(e: Event)
    ensures e.typ == PlanUpdate ==> Journaled(e, Trace(AgentPlanProposed, Some(TrimSpace(e.message))))
    ensures e.typ == TodoUpdate ==> Journaled(e, Trace(AgentTodoUpdated, Some(e.data.todos)))
    ensures e.typ == FileChanged ==> Journaled(e, Trace(AgentWorkspace, Some(e.data.selected)))
    ensures e.typ == Permission ==> Journaled(e, Trace(AgentPermission, Some(e.data.selected)))
  {
    if e.typ == PlanUpdate {
      TracedAs(e, AgentPlanProposed, Some(TrimSpace(e.message)));
    } else if e.typ == TodoUpdate {
      TracedAs(e, AgentTodoUpdated, Some(e.data.todos));
    } else if e.typ == FileChanged {
      TracedAs(e, AgentWorkspace, Some(e.data.selected));
    } else if e.typ == Permission {
      TracedAs(e, AgentPermission, Some(e.data.selected));
    }
  }

  predicate AsksPermission(e: Event) {
    e.interaction.Some? && e.interaction.value.kind == PermissionKind
  }

  /** A request for permission is journaled as one; other questions, and answers, are never compared. */
  lemma InteractionsAreTraced(e: Event)
    ensures e.typ == InteractionRequested && AsksPermission(e) ==>
              Journaled(e, Trace(AgentPermission, Some(e.data.selected)))
    ensures e.typ == InteractionRequested && !AsksPermission(e) ==> Journaled(e, Trace(AgentInteraction, None))
    ensures e.typ == InteractionResolved ==> Journaled(e, Trace(UserRequestResolved, None))
  {
    if e.typ == InteractionRequested && AsksPermission(e) {
      TracedAs(e, AgentPermission, Some(e.data.selected));
    } else if e.typ == InteractionRequested {
      TracedAs(e, AgentInteraction, None);
    } else if e.typ == InteractionResolved {
      TracedAs(e, UserRequestResolved, None);
    }
  }

  /** Live-only events. */
  const LIVE := {Thinking, ToolStarted, ToolOutput, QueueUpdated, TraceUpdated, PermissionModes, Models,
                 ReasoningLevels, AvailableCommands, ConfigCatalog}

  /** Reports on the agent are journaled and never compared; live-only events are not journaled. */
  lemma OthersAreTraced(e: Event)
    ensures e.typ == Stalled ==> Journaled(e, Trace(AgentStalled, None))
    ensures e.typ == Recovered ==> Journaled(e, Trace(AgentRecovered, None))
    ensures e.typ == ResumeFailed ==> Journaled(e, Trace(AgentResumeFailed, None))
    ensures e.typ in LIVE || e.typ.Unknown? ==> Quiet(e)
    ensures e.typ.Dotted? ==> Translate(e).Some? && Translate(e).value.event == e.typ.record
  {
    if e.typ == Stalled {
      TracedAs(e, AgentStalled, None);
    } else if e.typ == Recovered {
      TracedAs(e, AgentRecovered, None);
    } else if e.typ == ResumeFailed {
      TracedAs(e, AgentResumeFailed, None);
    }
  }
}
