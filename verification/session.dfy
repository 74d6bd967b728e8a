/** Session status and the table of legal transitions (session/session.go). */
module Sessions {
  import opened Outcomes

  datatype Status = Creating | Active | Running | WaitingInput | Failed | Closed

  datatype TransitionError = InvalidTransition(from: Status, to: Status)

  function AllowedTransitions(from: Status): set<Status> {
    match from
    case Creating => {Active, Failed, Closed}
    case Active => {Running, Failed, Closed}
    case Running => {Active, WaitingInput, Failed, Closed}
    case WaitingInput => {Active, Running, Failed, Closed}
    case Failed => {Closed}
    case Closed => {}
  }

  /**
   Every open session can be closed and every running one can fail; turns go between active, running and
   waiting; nothing leaves closed, and only a close leaves failed.
   */
  lemma EdgesExactly(from: Status, to: Status)
    ensures to in AllowedTransitions(from) <==>
              || (to == Closed && from != Closed)
              || (to == Failed && from != Failed && from != Closed)
              || (to == Active && (from == Creating || from == Running || from == WaitingInput))
              || (to == Running && (from == Active || from == WaitingInput))
              || (to == WaitingInput && from == Running)
  {
  }

  /** The status left behind by a transition whose error the caller discards. */
  function Moved(from: Status, to: Status): Status {
    if to in AllowedTransitions(from) then to else from
  }

  predicate InTurn(s: Status) {
    s == Running || s == WaitingInput
  }

  class Session {
    var status: Status

    constructor ()
      ensures status == Creating
    {
      status := Creating;
    }

    method Transition(next: Status) returns (err: Option<TransitionError>)
      modifies this
      ensures err == None <==> next in AllowedTransitions(old(status))
      ensures err.Some? ==> err.value == InvalidTransition(old(status), next)
      ensures status == if err == None then next else old(status)
    {
      if next !in AllowedTransitions(status) {
        return Some(InvalidTransition(status, next));
      }
      status := next;
      err := None;
    }
  }
}
