/** The admission rule of the run ledger: from a run's ledger state and the shape of the next
    call, decide whether the call may go ahead, how many output tokens it may produce and how
    much budget to reserve for it. Amounts are micros (1e-6 USD); prices are exact reals. */
module AdmissionRule {
  import opened Numbers

  datatype Prices = Prices(inputMicros: real, outputMicros: real)

  datatype RunState = RunState(
    budget: int, spend: int, inflight: int, haltedReason: Option<string>,
    steps: int, concurrent: int, steered: bool, recent: seq<string>)

  datatype Policies = Policies(
    maxSteps: int, maxConcurrent: int, guardThreshold: real, defaultMaxOutput: int,
    cheapModel: string, loopWindow: int, loopRepeats: int)

  /** The next call: estimated input tokens, the caller's output cap (absent or 0 means the
      default cap) and the hash of its prompt. */
  datatype Call = Call(estInput: nat, maxOutput: Option<nat>, promptHash: string)

  datatype Action = Allow | Mutate | Queue | Halt

  datatype Decision = Decision(
    action: Action, haltReason: Option<string>, modelOverride: Option<string>,
    maxOutput: Option<int>, inject: Option<string>, reserve: int)
  {
    predicate Admits() { action == Allow || action == Mutate }
  }

  /** Dividing by an output price of zero raises in the service. */
  datatype Outcome = Returns(decision: Decision) | RaisesZeroDivision {
    predicate Admits() { Returns? && decision.Admits() }
  }

  const PROGRESS_NOTE := "You are repeating the same request. Answer from what you already have."
  const BUDGET_NOTE := "Budget is nearly exhausted. Answer from what you have."

  function HaltWith(reason: string): Outcome {
    Returns(Decision(Halt, Some(reason), None, None, None, 0))
  }

  /** The exact cost of tokens at a rate per token. */
  function At(tokens: int, rate: real): real { tokens as real * rate }

  function InputCost(p: Prices, input: int): real { At(input, p.inputMicros) }

  function ExactCost(p: Prices, input: int, output: int): real {
    InputCost(p, input) + At(output, p.outputMicros)
  }

  function WorstCase(p: Prices, input: int, output: int): int {
    Round(ExactCost(p, input, output))
  }

  /** Python's s[-n:], including n = 0 (everything) and negative n. */
  function LastOf<T>(s: seq<T>, n: int): seq<T> {
    if n > 0 then s[Max(0, |s| - n)..]
    else s[Min(-n, |s|)..]
  }

  predicate Flagged(run: RunState) {
    run.haltedReason.Some? && run.haltedReason.value != ""
  }

  predicate Repeating(run: RunState, call: Call, pol: Policies) {
    multiset(LastOf(run.recent, pol.loopWindow))[call.promptHash] >= pol.loopRepeats
  }

  predicate AtThreshold(run: RunState, pol: Policies) {
    run.spend as real >= run.budget as real * pol.guardThreshold
  }

  function Requested(call: Call, pol: Policies): int {
    if call.maxOutput.Some? && call.maxOutput.value != 0 then call.maxOutput.value else pol.defaultMaxOutput
  }

  function Remaining(run: RunState): int { run.budget - run.spend - run.inflight }

  function Decide(run: RunState, p: Prices, call: Call, pol: Policies): Outcome {
    if Flagged(run) then
      HaltWith(run.haltedReason.value)
    else if run.spend + run.inflight >= run.budget then
      HaltWith("cost_budget")
    else if run.steps >= pol.maxSteps then
      HaltWith("step_cap")
    else if Repeating(run, call, pol) then
      Returns(Decision(Mutate, None, None, Some(pol.defaultMaxOutput), Some(PROGRESS_NOTE),
                       WorstCase(p, call.estInput, pol.defaultMaxOutput)))
    else if run.concurrent >= pol.maxConcurrent then
      Returns(Decision(Queue, None, None, None, None, 0))
    else
      var cap := Requested(call, pol);
      var steer := !run.steered && AtThreshold(run, pol);
      if WorstCase(p, call.estInput, cap) <= Remaining(run) then
        Admit(p, call, pol, cap, steer)
      else if p.outputMicros == 0.0 then
        RaisesZeroDivision
      else
        var affordable := Affordable(p, call.estInput, Remaining(run));
        if affordable < 1 then
          HaltWith("pre_call_worst_case")
        else
          Admit(p, call, pol, affordable, steer)
  }

  /** Whole output tokens that fit beside the input in `remaining` micros. */
  function Affordable(p: Prices, input: int, remaining: int): int
    requires p.outputMicros != 0.0
  {
    FloorDiv(remaining as real - InputCost(p, input), p.outputMicros)
  }

  function Admit(p: Prices, call: Call, pol: Policies, cap: int, steer: bool): Outcome {
    var sameCap := call.maxOutput.Some? && cap == call.maxOutput.value;
    Returns(Decision(
              if steer || !sameCap then Mutate else Allow,
              None,
              if steer then Some(pol.cheapModel) else None,
              Some(cap),
              if steer then Some(BUDGET_NOTE) else None,
              WorstCase(p, call.estInput, cap)))
  }

  // ---- what the rule promises ----

  /** Prices as the operator may set them, and a default cap that asks for some output. */
  predicate Sane(p: Prices, pol: Policies) {
    p.inputMicros >= 0.0 && p.outputMicros >= 0.0 && pol.defaultMaxOutput >= 0
  }

  /** The call reaches the pricing stage: no earlier guard fires. */
  predicate ReachesPricing(run: RunState, call: Call, pol: Policies) {
    && !Flagged(run)
    && run.spend + run.inflight < run.budget
    && run.steps < pol.maxSteps
    && !Repeating(run, call, pol)
    && run.concurrent < pol.maxConcurrent
  }

  lemma AffordableIsLargest(p: Prices, input: int, remaining: int, c: int)
    requires p.outputMicros > 0.0
    ensures ExactCost(p, input, c) <= remaining as real <==> c <= Affordable(p, input, remaining)
  {
    FloorDivBound(remaining as real - InputCost(p, input), p.outputMicros, c);
  }

  lemma MoreOutputCostsMore(p: Prices, input: int, c: int, d: int)
    requires p.outputMicros >= 0.0 && c <= d
    ensures ExactCost(p, input, c) <= ExactCost(p, input, d)
    ensures WorstCase(p, input, c) <= WorstCase(p, input, d)
  {
    MulMonotone(c as real, d as real, p.outputMicros);
    RoundMonotone(ExactCost(p, input, c), ExactCost(p, input, d));
  }

  lemma CostNonNegative(p: Prices, input: int, output: int)
    requires p.inputMicros >= 0.0 && p.outputMicros >= 0.0 && input >= 0 && output >= 0
    ensures ExactCost(p, input, output) >= 0.0 && WorstCase(p, input, output) >= 0
  {
    MulMonotone(0.0, input as real, p.inputMicros);
    MulMonotone(0.0, output as real, p.outputMicros);
    RoundWithin(ExactCost(p, input, output), 0);
  }

  /** Cap shrinking is sound and optimal. Off the progress-guard path the reservation is the
      rounded cost of the granted cap and fits the remaining budget; the cap is either the one
      asked for, or strictly smaller and the largest whose exact cost still fits. */
  lemma {:induction false} ShrinkingIsSoundAndOptimal(run: RunState, p: Prices, call: Call, pol: Policies)
    requires Sane(p, pol)
    requires !Repeating(run, call, pol)
    requires Decide(run, p, call, pol).Admits()
    ensures var d := Decide(run, p, call, pol).decision;
            && d.maxOutput.Some?
            && d.reserve == WorstCase(p, call.estInput, d.maxOutput.value)
            && 0 <= d.reserve <= Remaining(run)
            && (d.maxOutput.value == Requested(call, pol) || (
                  && 1 <= d.maxOutput.value < Requested(call, pol)
                  && WorstCase(p, call.estInput, Requested(call, pol)) > Remaining(run)
                  && forall c :: ExactCost(p, call.estInput, c) <= Remaining(run) as real <==> c <= d.maxOutput.value))
  {
    var d := Decide(run, p, call, pol).decision;
    var cap, want, rest := d.maxOutput.value, Requested(call, pol), Remaining(run);
    CostNonNegative(p, call.estInput, cap);
    if WorstCase(p, call.estInput, want) > rest {
      forall c
        ensures ExactCost(p, call.estInput, c) <= rest as real <==> c <= cap
      {
        AffordableIsLargest(p, call.estInput, rest, c);
      }
      assert ExactCost(p, call.estInput, cap) <= rest as real;
      RoundWithin(ExactCost(p, call.estInput, cap), rest);
      if want <= cap {
        MoreOutputCostsMore(p, call.estInput, want, cap);
      }
    }
  }

  /** The call is halted for its worst case exactly when it reaches pricing, its requested cap
      does not fit, and not even one output token's exact cost does. */
  lemma {:induction false} WorstCaseHaltExactly(run: RunState, p: Prices, call: Call, pol: Policies)
    requires Sane(p, pol) && !Flagged(run)
    ensures Decide(run, p, call, pol) == HaltWith("pre_call_worst_case") <==>
            && ReachesPricing(run, call, pol)
            && p.outputMicros > 0.0
            && WorstCase(p, call.estInput, Requested(call, pol)) > Remaining(run)
            && ExactCost(p, call.estInput, 1) > Remaining(run) as real
  {
    if p.outputMicros > 0.0 {
      AffordableIsLargest(p, call.estInput, Remaining(run), 1);
    }
  }

  /** The rule raises exactly when output is free and the input alone, rounded, does not fit. */
  lemma {:induction false} RaisesExactly(run: RunState, p: Prices, call: Call, pol: Policies)
    ensures Decide(run, p, call, pol) == RaisesZeroDivision <==>
            && ReachesPricing(run, call, pol)
            && p.outputMicros == 0.0
            && Round(InputCost(p, call.estInput)) > Remaining(run)
  {
    if p.outputMicros == 0.0 {
      var c := Requested(call, pol);
      assert c as real * p.outputMicros == 0.0;
      assert ExactCost(p, call.estInput, c) == InputCost(p, call.estInput);
    }
  }

  /** Such a call: any untouched run, output free, and one input token more than the budget holds. */
  lemma {:induction false} FreeOutputCanRaise(budget: nat, call: Call, pol: Policies)
    requires budget > 0 && pol.maxSteps > 0 && pol.maxConcurrent > 0 && pol.loopRepeats > 0
    requires call.estInput == budget + 1
    ensures Decide(RunState(budget, 0, 0, None, 0, 0, false, []), Prices(1.0, 0.0), call, pol) == RaisesZeroDivision
  {
    var run := RunState(budget, 0, 0, None, 0, 0, false, []);
    assert ReachesPricing(run, call, pol) by {
      assert LastOf<string>([], pol.loopWindow) == [];
    }
    RoundWithin((budget + 1) as real, budget + 1);
    RaisesFrom(run, Prices(1.0, 0.0), call, pol);
  }

  lemma {:induction false} RaisesFrom(run: RunState, p: Prices, call: Call, pol: Policies)
    requires ReachesPricing(run, call, pol) && p.outputMicros == 0.0 && p.inputMicros == 1.0
    requires Round(call.estInput as real) > Remaining(run)
    ensures Decide(run, p, call, pol) == RaisesZeroDivision
  {
    assert InputCost(p, call.estInput) == call.estInput as real;
    RaisesExactly(run, p, call, pol);
  }

  /** More budget never hurts: a call admitted under one budget is admitted under any larger
      one, with at least as many output tokens. */
  lemma {:induction false} MoreBudgetNeverHurts(run: RunState, p: Prices, call: Call, pol: Policies, budget: int)
    requires Sane(p, pol)
    requires run.budget <= budget
    requires Decide(run, p, call, pol).Admits()
    ensures var o := Decide(run.(budget := budget), p, call, pol);
            && o.Admits()
            && Decide(run, p, call, pol).decision.maxOutput.Some? && o.decision.maxOutput.Some?
            && Decide(run, p, call, pol).decision.maxOutput.value <= o.decision.maxOutput.value
  {
    var richer := run.(budget := budget);
    assert LastOf(richer.recent, pol.loopWindow) == LastOf(run.recent, pol.loopWindow);
    if !Repeating(run, call, pol) {
      ShrinkingIsSoundAndOptimal(run, p, call, pol);
      var cap := Decide(run, p, call, pol).decision.maxOutput.value;
      if WorstCase(p, call.estInput, Requested(call, pol)) > Remaining(richer) {
        assert p.outputMicros != 0.0 by {
          RaisesExactly(run, p, call, pol);
          assert Requested(call, pol) as real * 0.0 == 0.0;
        }
        AffordableIsLargest(p, call.estInput, Remaining(richer), cap);
        assert ExactCost(p, call.estInput, cap) <= Remaining(run) as real;
      }
    }
  }

  /** An admitting decision tells by its note whether the progress guard made it. */
  lemma {:induction false} NoteTellsTheGuard(run: RunState, p: Prices, call: Call, pol: Policies)
    requires Decide(run, p, call, pol).Admits()
    ensures Decide(run, p, call, pol).decision.inject == Some(PROGRESS_NOTE) <==> Repeating(run, call, pol)
  {
    assert |PROGRESS_NOTE| != |BUDGET_NOTE|;
  }

  lemma {:induction false} SameGuardSameDecision(run: RunState, p: Prices, call: Call, pol: Policies, recent: seq<string>)
    requires Repeating(run, call, pol) <==> Repeating(run.(recent := recent), call, pol)
    ensures Decide(run, p, call, pol) == Decide(run.(recent := recent), p, call, pol)
  {
    var other := run.(recent := recent);
    assert AtThreshold(other, pol) == AtThreshold(run, pol) && Remaining(other) == Remaining(run);
  }

  /** Reading a different prompt list changes an admitting decision only through the guard. */
  lemma {:induction false} PromptsMatterOnlyToTheGuard(run: RunState, p: Prices, call: Call, pol: Policies, recent: seq<string>)
    requires Decide(run, p, call, pol).Admits()
    ensures Decide(run, p, call, pol) == Decide(run.(recent := recent), p, call, pol) <==>
            (Repeating(run, call, pol) <==> Repeating(run.(recent := recent), call, pol))
  {
    var other := run.(recent := recent);
    if Repeating(run, call, pol) <==> Repeating(other, call, pol) {
      SameGuardSameDecision(run, p, call, pol, recent);
    } else if Decide(other, p, call, pol).Admits() {
      NoteTellsTheGuard(run, p, call, pol);
      NoteTellsTheGuard(other, p, call, pol);
    }
  }
}
