/** Provider-neutral host events (host/types.go). */
module Host {
  import opened Outcomes

  /** The names under which records are journaled (journal/events.go). */
  datatype EventName =
    | UserMessage | UserRequestResolved
    | AgentMessage | AgentPermission | AgentInteraction | AgentWorkspace
    | AgentTurnStarted | AgentYielded | AgentInterrupted | AgentTurnFailed | AgentProcessExited
    | AgentStalled | AgentRecovered | AgentResumeFailed | AgentPlanProposed | AgentTodoUpdated
    | SessionCreated | SessionStarted | SessionClosed
    | Extension(name: string)

  /**
   The normalized event kinds. A type string that contains a dot is identified with the record
   name it is journaled under, `Dotted`; any other unknown type string is `Unknown`.
   */
  datatype EventType =
    | Message | Thinking | ToolStarted | ToolOutput | Permission | FileChanged
    | TurnStarted | TurnComplete | TurnFailed | ProcessExited
    | QueueUpdated | TraceUpdated | Stalled | Recovered | ResumeFailed
    | PlanUpdate | TodoUpdate | PermissionModes | Models | ReasoningLevels
    | AvailableCommands | ConfigCatalog | InteractionRequested | InteractionResolved
    | Dotted(record: EventName) | Unknown(text: string)

  datatype InteractionKind = PermissionKind | ChoiceKind | FormKind | PlanKind

  /** `detail` stands for the title, options and fields, which the runtime never inspects. */
  datatype Interaction = Interaction(id: string, kind: InteractionKind, detail: string)

  datatype Response = Response(requestID: string, action: string, message: string)

  /**
   The entries of an event's data map that the runtime reads. An absent entry is the empty
   string; `todos` and `selected` hold the JSON text of their entries ("null" when absent).
   */
  datatype EventData = EventData(delta: string, providerID: string, streaming: bool,
                                 todos: string, selected: string)

  const NO_DATA := EventData("", "", false, "null", "null")

  datatype Event = Event(
    sourceEventID: string,
    sessionID: string,
    backend: string,
    backendSessionID: string,
    threadID: string,
    turnID: string,
    seqNo: int,
    typ: EventType,
    role: string,
    message: string,
    data: EventData,
    interaction: Option<Interaction>,
    response: Option<Response>)

  predicate IsTerminal(t: EventType) {
    t == TurnComplete || t == TurnFailed || t == ProcessExited
  }

  /** An event of the given kind with every optional field left out. */
  function Bare(typ: EventType, turnID: string): Event {
    Event("", "", "", "", "", turnID, 0, typ, "", "", NO_DATA, None, None)
  }
}
