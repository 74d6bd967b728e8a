/** Journal records (journal/record.go) and the translation of live events (journal/events.go). */
module Journal {
  import opened Outcomes
  import opened Text
  import opened Host

  /**
   The decoded data of a record: what the runtime and the replay matcher read from it.
   `Unreadable` is data that is not a JSON object, `Absent` is data of length zero.
   */
  datatype Data =
    | Absent
    | Unreadable
    | Fields(message: string, providerID: string, todos: string, selected: string,
             threadID: string, interaction: Option<Interaction>, response: Option<Response>,
             backend: string, worktree: string)

  const NO_FIELDS := Fields("", "", "null", "null", "", None, None, "", "")

  datatype Record = Record(
    schema: string,
    schemaVersion: int,
    eventVersion: int,
    eventID: string,
    sourceEventID: string,
    sequence: nat,
    timestamp: int,
    sessionID: string,
    conversation: string,
    event: EventName,
    turnID: string,
    data: Data)

  /** A record before the store has filled in its envelope. */
  function Draft(sessionID: string, event: EventName, turnID: string, sourceEventID: string, data: Data): Record {
    Record("", 0, 0, "", sourceEventID, 0, 0, sessionID, "", event, turnID, data)
  }

  function MessageName(role: string): Option<EventName> {
    var normalized := ToLower(TrimSpace(role));
    if normalized == "user" then Some(UserMessage)
    else if normalized == "assistant" || normalized == "agent" then Some(AgentMessage)
    else None
  }

  /** The record name of an event; None when the event is not journaled. */
  function TranslatedEventName(event: Event): Option<EventName> {
    match event.typ
    case Dotted(record) => Some(record)
    case Message => MessageName(event.role)
    case Permission => Some(AgentPermission)
    case InteractionRequested =>
      if event.interaction.Some? && event.interaction.value.kind == PermissionKind
      then Some(AgentPermission) else Some(AgentInteraction)
    case InteractionResolved => Some(UserRequestResolved)
    case FileChanged => Some(AgentWorkspace)
    case TurnStarted => Some(AgentTurnStarted)
    case TurnComplete => Some(AgentYielded)
    case TurnFailed => Some(AgentTurnFailed)
    case ProcessExited => Some(AgentProcessExited)
    case Stalled => Some(AgentStalled)
    case Recovered => Some(AgentRecovered)
    case ResumeFailed => Some(AgentResumeFailed)
    case PlanUpdate => Some(AgentPlanProposed)
    case TodoUpdate => Some(AgentTodoUpdated)
    case _ => None
  }

  function Translate(event: Event): Option<Record> {
    match TranslatedEventName(event)
    case None => None
    case Some(name) =>
      Some(Draft(event.sessionID, name, event.turnID, event.sourceEventID,
        Fields(event.message, event.data.providerID, event.data.todos, event.data.selected,
               if event.backend != "" then event.threadID else "",
               event.interaction, event.response, "", "")))
  }

  /** The journal records that a sequence of live events leaves behind. */
  function TranslateAll(events: seq<Event>): seq<Record> {
    if events == [] then []
    else (match Translate(events[0]) case Some(r) => [r] case None => []) + TranslateAll(events[1..])
  }

  lemma {:induction false} TranslateAllConcat(a: seq<Event>, b: seq<Event>)
    ensures TranslateAll(a + b) == TranslateAll(a) + TranslateAll(b)
  {
    if a == [] {
      assert a + b == b;
    } else {
      assert (a + b)[1..] == a[1..] + b;
      TranslateAllConcat(a[1..], b);
    }
  }
}
