/**
 failSubmission and the interrupt fallback each hold the lock twice: once to clear or check the turn, once
 to deliver the failure event. What the event does when it comes late, and which steps in between are
 harmless.
 */
module LockRegions {
  import opened Host
  import opened Turns
  import opened Machines
  import Provider

  /** A late event leaves the turn and the status of the session alone. */
  predicate LeavesTurn(s: State, e: Event) {
    var s' := Turns.Deliver(s, e).0;
    && s'.dispatching == s.dispatching && s'.active == s.active && s'.activeTurnID == s.activeTurnID
    && s'.status == s.status
  }

  // ---- failSubmission ----

  /** The event of a failed submission comes late without harm exactly when it finds the session idle. */
  lemma LateFailureLeavesIdleSessions(s: State)
    requires Coupled(s) && Open(s)
    ensures LeavesTurn(s, SUBMISSION_FAILURE) <==> !s.active && !s.dispatching
  {
  }

  /** Steps that put a turn into an idle session: a reservation, or a turn the provider starts. */
  predicate TakesTurn(m: Machine, step: Step) {
    || Provider.NewReservations(m, step) != multiset{}
    || (step.Deliver? && step.event.typ == TurnStarted && step.event.turnID != "")
  }

  /** A step between the two lock regions of failSubmission is harmless exactly when it takes no turn. */
  lemma HarmlessBeforeTheFailure(m: Machine, step: Step)
    requires Coupled(m.s) && Open(m.s) && !m.s.active && !m.s.dispatching
    ensures LeavesTurn(Apply(m, step).s, SUBMISSION_FAILURE) <==> !TakesTurn(m, step)
  {
    if step.Deliver? {
      IdleDelivery(m.s, step.event);
    } else if step.SubmitFails? || step.InterruptReturns? {
      IdleFailure(m.s);
    } else {
      IdleCall(m, step);
    }
    StartsIdleStaysCoupled(m, step);
    if Open(Apply(m, step).s) {
      LateFailureLeavesIdleSessions(Apply(m, step).s);
    }
  }

  lemma StartsIdleStaysCoupled(m: Machine, step: Step)
    requires Coupled(m.s) && !m.s.active && !m.s.dispatching
    ensures Coupled(Apply(m, step).s)
  {
    StepKeepsCoupling(m, step);
  }

  lemma IdleDelivery(s: State, e: Event)
    requires Coupled(s) && Open(s) && !s.active && !s.dispatching
    ensures var s' := Turns.Deliver(s, e).0;
            Open(s') && !s'.dispatching && (s'.active <==> e.typ == TurnStarted && e.turnID != "")
  {
  }

  lemma IdleFailure(s: State)
    requires Coupled(s) && Open(s) && !s.active && !s.dispatching
    ensures var s' := FailSubmission(s).0; Open(s') && !s'.dispatching && !s'.active
  {
  }

  lemma IdleCall(m: Machine, step: Step)
    requires Coupled(m.s) && Open(m.s) && !m.s.active && !m.s.dispatching
    requires !step.Deliver? && !step.SubmitFails? && !step.InterruptReturns?
    ensures var s' := Apply(m, step).s;
            && !s'.active && (s'.dispatching <==> Provider.NewReservations(m, step) != multiset{})
            && (!Open(s') ==> !s'.dispatching && LeavesTurn(s', SUBMISSION_FAILURE))
  {
  }

  /**
   With a Send in between, a late failure frees the session of the turn that was sent, and one more
   turn is dispatched beside it; so it is from every session that is dispatching and not blocked.
   */
  lemma SplitFailureForgetsATurn(s: State, r: Request)
    requires Coupled(s) && Open(s) && s.dispatching && !s.blocked && !EmptyRequest(r)
    ensures var second := Turns.Send(SubmissionCleared(s), r, false);
            var third := Turns.Send(Turns.Deliver(second.0, SUBMISSION_FAILURE).0, r, false);
            second.1.Dispatched? && third.1.Dispatched?
  {
    LateFailureFrees(Reserved(SubmissionCleared(s)), "");
  }

  // ---- The interrupt fallback ----

  /** The fallback for turn t comes late without harm exactly when t is over and no other is reserved. */
  lemma LateFallbackLeavesOtherTurns(s: State, t: string)
    requires Coupled(s) && Open(s) && t != ""
    ensures LeavesTurn(s, Bare(TurnFailed, t)) <==> if s.active then s.activeTurnID != t else !s.dispatching
  {
  }

  /**
   No single step between the check and the event does harm: the event ends turn t or leaves the session
   alone. It takes two, one that ends t and one that reserves the next.
   */
  lemma OneStepBeforeTheFallback(m: Machine, step: Step, t: string)
    requires Coupled(m.s) && Open(m.s) && m.s.active && m.s.activeTurnID == t && StartsIdle(m, step)
    ensures var s' := Apply(m, step).s;
            (s'.active && s'.activeTurnID == t) || LeavesTurn(s', Bare(TurnFailed, t))
  {
    StepKeepsCoupling(m, step);
    ActiveDoesNotReserve(m, step);
    if Open(Apply(m, step).s) {
      LateFallbackLeavesOtherTurns(Apply(m, step).s, t);
    }
  }

  lemma ActiveDoesNotReserve(m: Machine, step: Step)
    requires Coupled(m.s) && Open(m.s) && m.s.active && StartsIdle(m, step)
    ensures var s' := Apply(m, step).s;
            && !s'.dispatching
            && (!Open(s') ==> !s'.active && forall t :: LeavesTurn(s', Bare(TurnFailed, t)))
  {
    if step.Deliver? {
      ActiveDelivery(m.s, step.event);
    } else if step.SubmitFails? {
      FailureKeepsCoupling(m.s);
    } else if step.InterruptReturns? {
      ActiveDelivery(m.s, Bare(TurnFailed, step.turnID));
    }
  }

  lemma ActiveDelivery(s: State, e: Event)
    requires Coupled(s) && Open(s) && s.active
    ensures var s' := Turns.Deliver(s, e).0; Open(s') && !s'.dispatching
  {
  }

  /** When the turn ends and the next is sent in between, the late fallback frees the session of the next. */
  lemma SplitFallbackForgetsATurn(s: State, r: Request)
    requires Coupled(s) && Open(s) && s.active && !s.blocked && !EmptyRequest(r)
    ensures var ended := Turns.Deliver(s, Bare(TurnComplete, s.activeTurnID)).0;
            var second := Turns.Send(ended, r, false);
            var third := Turns.Send(Turns.Deliver(second.0, Bare(TurnFailed, s.activeTurnID)).0, r, false);
            second.1.Dispatched? && third.1.Dispatched?
  {
    TerminalFrees(s);
    LateFailureFrees(Reserved(Turns.Deliver(s, Bare(TurnComplete, s.activeTurnID)).0), s.activeTurnID);
  }

  lemma TerminalFrees(s: State)
    requires Coupled(s) && Open(s) && s.active
    ensures Turns.Deliver(s, Bare(TurnComplete, s.activeTurnID)).0 == Ended(s)
  {
  }

  lemma LateFailureFrees(s: State, t: string)
    requires s.activeTurnID == ""
    ensures Turns.Deliver(s, Bare(TurnFailed, t)).0 == Ended(s)
  {
  }
}
