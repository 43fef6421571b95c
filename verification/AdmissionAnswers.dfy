/** What the admission rule answers, in terms of what the caller asked for and of what another ledger
    or another policy would have had it answer. */
module AdmissionAnswers {
  import opened Numbers
  import opened AdmissionRule

  /** The caller's own cap if it names one other than 0, else the default. */
  predicate Asks(call: Call, pol: Policies, want: int) {
    match call.maxOutput
    case None => want == pol.defaultMaxOutput
    case Some(n) => want == if n > 0 then n else pol.defaultMaxOutput
  }

  /** The price of a call in micros: its tokens at their rates, rounded. */
  function Price(p: Prices, input: int, output: int): int { Round(At(input, p.inputMicros) + At(output, p.outputMicros)) }

  /** Off the guard's path a call is granted at most the cap it asks for, and that cap exactly if its
      worst case fits in what is left; the reservation is the rounded price of the cap granted. */
  lemma {:induction false} GrantedCapExactly(run: RunState, p: Prices, call: Call, pol: Policies, want: int)
    requires Sane(p, pol) && !Repeating(run, call, pol) && Decide(run, p, call, pol).Admits() && Asks(call, pol, want)
    ensures var d := Decide(run, p, call, pol).decision;
            && d.maxOutput.Some? && d.maxOutput.value <= want
            && (d.maxOutput.value == want <==>
                Price(p, call.estInput, want) <= run.budget - run.spend - run.inflight)
            && d.reserve == Price(p, call.estInput, d.maxOutput.value)
  {
    assert want == Requested(call, pol);
    ShrinkingIsSoundAndOptimal(run, p, call, pol);
  }

  /** A call is halted for its worst case exactly if no earlier guard answers, output has a price, the
      cap it asks for does not fit and not even one output token's exact cost does. */
  lemma {:induction false} HaltedForItsCapExactly(run: RunState, p: Prices, call: Call, pol: Policies, want: int)
    requires Sane(p, pol) && !Flagged(run) && Asks(call, pol, want)
    ensures var rest := run.budget - run.spend - run.inflight;
            Decide(run, p, call, pol) == HaltWith("pre_call_worst_case") <==>
            && ReachesPricing(run, call, pol)
            && p.outputMicros > 0.0
            && Price(p, call.estInput, want) > rest
            && At(call.estInput, p.inputMicros) + At(1, p.outputMicros) > rest as real
  {
    WorstCaseHaltExactly(run, p, call, pol);
    assert want == Requested(call, pol);
  }

  /** A call is let through unchanged exactly if it goes out as it came: with its own cap, to its own
      model and without a note. A model named instead is the cheap one, and a note comes with it. */
  lemma {:induction false} AllowedMeansUntouched(run: RunState, p: Prices, call: Call, pol: Policies)
    requires Decide(run, p, call, pol).Admits()
    ensures var d := Decide(run, p, call, pol).decision;
            && d.maxOutput.Some?
            && (d.action == Allow <==>
                call.maxOutput.Some? && d.maxOutput.value == call.maxOutput.value && d.modelOverride == None && d.inject == None)
            && (d.modelOverride.Some? ==> d.modelOverride == Some(pol.cheapModel))
            && (d.modelOverride.Some? ==> d.inject == Some("Budget is nearly exhausted. Answer from what you have."))
  {
  }

  /** A call is queued exactly if an idle slot would change the answer. */
  lemma {:induction false} QueuedForASlotExactly(run: RunState, p: Prices, call: Call, pol: Policies)
    ensures var o := Decide(run, p, call, pol);
            o.Returns? && o.decision.action == Queue <==>
            run.concurrent >= pol.maxConcurrent && o != Decide(run.(concurrent := pol.maxConcurrent - 1), p, call, pol)
  {
    assert LastOf(run.(concurrent := pol.maxConcurrent - 1).recent, pol.loopWindow) == LastOf(run.recent, pol.loopWindow);
  }

  /** A run that is not flagged is halted for its steps exactly if a higher step cap would change the
      answer. */
  lemma {:induction false} HaltedForItsStepsExactly(run: RunState, p: Prices, call: Call, pol: Policies)
    requires !Flagged(run)
    ensures var o := Decide(run, p, call, pol);
            o == HaltWith("step_cap") <==>
            run.steps >= pol.maxSteps && o != Decide(run, p, call, pol.(maxSteps := run.steps + 1))
  {
    assert "step_cap" != "pre_call_worst_case" && "step_cap" != "cost_budget" by {
      assert |"step_cap"| == 8 && |"pre_call_worst_case"| == 19 && |"cost_budget"| == 11;
    }
  }

  /** The progress guard admits any repeated call while some budget and a step are left, at the default
      cap and its price: whatever cap was asked for, whatever is in flight and however little is left. */
  lemma {:induction false} GuardIgnoresTheRest(run: RunState, p: Prices, call: Call, pol: Policies)
    requires !Flagged(run) && Repeating(run, call, pol) && run.steps < pol.maxSteps && run.spend + run.inflight < run.budget
    ensures var o := Decide(run, p, call, pol);
            && o.Admits()
            && o.decision.inject == Some("You are repeating the same request. Answer from what you already have.")
            && o.decision.maxOutput == Some(pol.defaultMaxOutput) && o.decision.modelOverride == None
            && o.decision.reserve == Price(p, call.estInput, pol.defaultMaxOutput)
            && forall slots, asked, steered ::
                 Decide(run.(concurrent := slots, steered := steered), p, call.(maxOutput := asked), pol) == o
  {
  }
}
