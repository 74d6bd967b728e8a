/** When a session waits for an answer. */
module Waiting {
  import opened Host
  import opened Sessions
  import opened Turns
  import opened Machines

  predicate Asks(step: Step) {
    step.Deliver? && step.event.typ == InteractionRequested
  }

  /** A question in a turn makes the session wait; an answer on its way, or the end of the turn, ends that. */
  lemma StepWaits(m: Machine, step: Step)
    requires Coupled(m.s) && StartsIdle(m, step) && Open(m.s) && Open(Apply(m, step).s)
    ensures var s' := Apply(m, step).s;
            s'.status == WaitingInput
            <==> s'.active && ((m.s.status == WaitingInput && step != RespondStarts) || (Asks(step) && m.s.active))
  {
    StepKeepsCoupling(m, step);
    if step.Deliver? {
      DeliveryWaits(m.s, step.event);
    } else if step.SubmitFails? {
      FailureIsIdle(m.s);
    } else if step.InterruptReturns? && m.s.active && m.s.activeTurnID == step.turnID {
      DeliveryWaits(m.s, Bare(TurnFailed, step.turnID));
    }
  }

  lemma DeliveryWaits(s: State, e: Event)
    requires Coupled(s) && Open(s)
    ensures var s' := Turns.Deliver(s, e).0;
            s'.status == WaitingInput
            <==> s'.active && (s.status == WaitingInput || (e.typ == InteractionRequested && s.active))
  {
  }

  lemma FailureIsIdle(s: State)
    requires Coupled(s) && Open(s)
    ensures !FailSubmission(s).0.active && FailSubmission(s).0.status == Active
  {
  }

  /** The state behind the first k steps of a run. */
  function At(m: Machine, steps: seq<Step>, k: nat): State
    requires k <= |steps|
  {
    Run(m, steps[..k]).s
  }

  /** Step i asked in a turn, and since then the turn went on and no answer was sent. */
  predicate OpenQuestion(m: Machine, steps: seq<Step>, i: nat)
    requires i < |steps|
  {
    && Asks(steps[i]) && At(m, steps, i).active
    && forall j :: i < j < |steps| ==> steps[j] != RespondStarts && At(m, steps, j).active
  }

  lemma {:induction false} RunLast(m: Machine, steps: seq<Step>)
    requires steps != []
    ensures var init := steps[..|steps| - 1];
            Run(m, steps) == Apply(Run(m, init), steps[|steps| - 1])
            && (LegalRun(m, steps) <==> LegalRun(m, init) && StartsIdle(Run(m, init), steps[|steps| - 1]))
    decreases |steps|
  {
    var init := steps[..|steps| - 1];
    if |steps| > 1 {
      assert steps[1..][..|steps| - 2] == init[1..];
      RunLast(Apply(m, steps[0]), steps[1..]);
    } else {
      assert init == [] && steps[1..] == [];
    }
  }

  lemma OpenQuestionLast(m: Machine, steps: seq<Step>, i: nat)
    requires i < |steps| - 1
    ensures var init := steps[..|steps| - 1];
            OpenQuestion(m, steps, i)
            <==> OpenQuestion(m, init, i) && steps[|steps| - 1] != RespondStarts && At(m, init, |init|).active
  {
    var init := steps[..|steps| - 1];
    assert forall k :: 0 <= k <= |init| ==> steps[..k] == init[..k];
    assert forall k :: 0 <= k <= |init| ==> At(m, steps, k) == At(m, init, k);
  }

  lemma OpenQuestionNow(m: Machine, steps: seq<Step>)
    requires steps != []
    ensures OpenQuestion(m, steps, |steps| - 1)
            <==> Asks(steps[|steps| - 1]) && Run(m, steps[..|steps| - 1]).s.active
  {
  }

  /**
   Over every run: an open session waits for input if and only if it is in a turn, a question was asked in
   that turn, and no answer has been sent since.
   */
  lemma {:induction false} WaitsForItsQuestion(id: string, backend: string, limit: nat, steps: seq<Step>)
    requires LegalRun(Created(id, backend, limit), steps)
    requires Open(Run(Created(id, backend, limit), steps).s)
    ensures var m := Created(id, backend, limit);
            Run(m, steps).s.status == WaitingInput
            <==> Run(m, steps).s.active && exists i :: 0 <= i < |steps| && OpenQuestion(m, steps, i)
    decreases |steps|
  {
    var m := Created(id, backend, limit);
    if steps != [] {
      var last := |steps| - 1;
      var init := steps[..last];
      RunLast(m, steps);
      var before := Run(m, init);
      if !Open(before.s) {
        StepStaysClosed(before, steps[last]);
      }
      RunStaysCoupledAndAwake(m, init);
      StepWaits(before, steps[last]);
      WaitsForItsQuestion(id, backend, limit, init);
      assert At(m, init, last) == before.s by {
        assert init[..last] == init;
      }
      OpenQuestionNow(m, steps);
      forall i | 0 <= i < last
        ensures OpenQuestion(m, steps, i)
                <==> OpenQuestion(m, init, i) && steps[last] != RespondStarts && before.s.active
      {
        OpenQuestionLast(m, steps, i);
      }
      WaitsIffOpen(m, steps, before);
    }
  }

  lemma WaitsIffOpen(m: Machine, steps: seq<Step>, before: Machine)
    requires steps != [] && Coupled(before.s) && Open(before.s)
    requires var last := |steps| - 1;
             && (OpenQuestion(m, steps, last) <==> Asks(steps[last]) && before.s.active)
             && (forall i :: 0 <= i < last ==>
                   (OpenQuestion(m, steps, i)
                    <==> OpenQuestion(m, steps[..last], i) && steps[last] != RespondStarts && before.s.active))
             && (before.s.status == WaitingInput
                 <==> before.s.active && exists i :: 0 <= i < last && OpenQuestion(m, steps[..last], i))
    ensures (exists i :: 0 <= i < |steps| && OpenQuestion(m, steps, i))
            <==> (before.s.status == WaitingInput && steps[|steps| - 1] != RespondStarts)
                 || (Asks(steps[|steps| - 1]) && before.s.active)
  {
    var last := |steps| - 1;
    if exists i :: 0 <= i < |steps| && OpenQuestion(m, steps, i) {
      var i :| 0 <= i < |steps| && OpenQuestion(m, steps, i);
      assert i < last ==> OpenQuestion(m, steps[..last], i);
    }
    if before.s.status == WaitingInput && steps[last] != RespondStarts {
      var i :| 0 <= i < last && OpenQuestion(m, steps[..last], i);
      assert OpenQuestion(m, steps, i);
    }
  }
}
