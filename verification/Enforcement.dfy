/** Where the daily budget bites: at which costs, in whole micros and through both roundings, a consumer
    is moved to which level, what usage costs, and what is stored. */
module Enforcement {
  import opened Numbers
  import opened Reconcile

  // ---- what usage costs ----

  /** Tokens at a rate per thousand. */
  function Thousands(tokens: int, rate: real): real { tokens as real * rate / 1000.0 }

  lemma {:induction false} ThousandsIs(tokens: int, rate: real)
    ensures Product(tokens as real / 1000.0, rate) == Thousands(tokens, rate)
  {
    var t := tokens as real;
    assert (t / 1000.0) * rate == t * rate / 1000.0;
  }

  /** The cost of usage is the sum over its models of prompt tokens at the prompt rate and completion
      tokens at the completion rate; models without a price are free. */
  lemma {:induction false} UsageIsPriced(u: Usage, pricing: Pricing, m: string)
    requires m in u
    ensures RawCost(map[], pricing) == 0.0
    ensures RawCost(u, pricing) == RawCost(u - {m}, pricing)
              + (if m in pricing then Thousands(u[m].prompt, pricing[m].prompt) + Thousands(u[m].completion, pricing[m].completion)
                 else 0.0)
  {
    RawCostAnyOrder(u, pricing, m);
    if m in pricing {
      ThousandsIs(u[m].prompt, pricing[m].prompt);
      ThousandsIs(u[m].completion, pricing[m].completion);
    }
  }

  predicate IsWhole(x: real) { x == x.Floor as real }

  /** The cost is a whole number of millionths, at most half a millionth off the exact sum. */
  lemma {:induction false} CostIsInMillionths(u: Usage, pricing: Pricing)
    ensures IsWhole(Cost(u, pricing) * 1000000.0)
    ensures -0.0000005 <= Cost(u, pricing) - RawCost(u, pricing) <= 0.0000005
  {
    var x := RawCost(u, pricing);
    var n := Round(x * 1000000.0);
    RoundIsNearestEven(x * 1000000.0, n);
    QuotientTimes(n as real, 1000000.0);
  }

  // ---- from which cost on ----

  /** Rounding reaches an even number half a unit before it. */
  lemma {:induction false} RoundReachesEven(x: real, n: int)
    requires n % 2 == 0
    ensures Round(x) >= n <==> x >= n as real - 0.5
  {
    RoundIsNearestEven(x, Round(x));
    if x >= n as real - 0.5 {
      RoundIsNearestEven(n as real - 0.5, n);
      RoundMonotone(n as real - 0.5, x);
    }
  }

  lemma {:induction false} PercentReaches(cost: real, budget: real, n: int)
    requires budget > 0.0 && n % 2 == 0
    ensures Percent(cost, budget) >= n as real / 10000.0 <==> cost / budget * 10000.0 >= n as real - 0.5
  {
    RoundReachesEven(cost / budget * 10000.0, n);
  }

  lemma {:induction false} QuotientReaches(cost: real, budget: real, x: real)
    requires budget > 0.0
    ensures cost / budget * 10000.0 >= x <==> cost >= x / 10000.0 * budget
  {
    QuotientBound(cost, budget, x / 10000.0);
  }

  /** The points of enforcement: level 1 from 79.995 percent of the budget on, level 2 from 99.995. */
  lemma {:induction false} LevelPoints(cost: real, budget: real)
    requires budget > 0.0
    ensures LevelFor(Percent(cost, budget)) >= 1 <==> cost >= 0.79995 * budget
    ensures LevelFor(Percent(cost, budget)) >= 2 <==> cost >= 0.99995 * budget
    ensures LevelFor(Percent(cost, budget)) <= 2
  {
    PercentReaches(cost, budget, 8000);
    QuotientReaches(cost, budget, 7999.5);
    PercentReaches(cost, budget, 10000);
    QuotientReaches(cost, budget, 9999.5);
    assert 7999.5 / 10000.0 == 0.79995 && 9999.5 / 10000.0 == 0.99995;
    assert 8000 as real / 10000.0 == 0.8 && 10000 as real / 10000.0 == 1.0;
  }

  /** A negative budget enforces nothing. */
  lemma {:induction false} NegativeBudgetIsIdle(cost: real, budget: real)
    requires budget < 0.0 && cost >= 0.0
    ensures LevelFor(Percent(cost, budget)) == 0
  {
    QuotientFalls(cost, budget);
    RoundToMonotone(cost / budget, 0.0, 10000.0);
    assert RoundTo(0.0, 10000.0) == 0.0;
  }

  lemma {:induction false} QuotientFalls(x: real, k: real)
    requires k < 0.0 <= x
    ensures x / k <= 0.0
  {
    var q := x / k;
    QuotientTimes(x, k);
    if q > 0.0 {
      MulStrict(0.0, q, -k);
    }
  }

  /** The level a cost calls for under a budget. */
  function Called(cost: real, budget: real): nat {
    if budget <= 0.0 || cost < 0.79995 * budget then 0 else if cost < 0.99995 * budget then 1 else 2
  }

  lemma {:induction false} LevelIsCalled(cost: real, budget: real)
    requires budget != 0.0 && cost >= 0.0
    ensures LevelFor(Percent(cost, budget)) == Called(cost, budget)
  {
    if budget > 0.0 {
      LevelPoints(cost, budget);
    } else {
      NegativeBudgetIsIdle(cost, budget);
    }
  }

  // ---- who changes, and to what ----

  /** The document names a consumer, a budget other than zero and a ladder, and has not stored the level
      its cost calls for. */
  ghost predicate Outdated(d: Doc, usage: map<string, Usage>, pricing: Pricing) {
    && d.consumer != "" && d.ladder != [] && d.budget.Some? && d.budget.value != 0.0
    && Called(Cost(UsageOf(usage, d.consumer), pricing), d.budget.value) != (if d.active.Some? then d.active.value.level else 0)
  }

  lemma {:induction false} CostNonNegative(u: Usage, pricing: Pricing)
    requires Proper(u, pricing)
    ensures Cost(u, pricing) >= 0.0
  {
    RawCostMonotone(u, u, pricing);
    RoundToMonotone(0.0, RawCost(u, pricing), 1000000.0);
    assert RoundTo(0.0, 1000000.0) == 0.0;
  }

  lemma {:induction false} DueIsOutdated(d: Doc, usage: map<string, Usage>, pricing: Pricing)
    requires Proper(UsageOf(usage, d.consumer), pricing)
    ensures Due(d, usage, pricing) <==> Outdated(d, usage, pricing)
  {
    CostNonNegative(UsageOf(usage, d.consumer), pricing);
    if d.budget.Some? && d.budget.value != 0.0 {
      LevelIsCalled(Cost(UsageOf(usage, d.consumer), pricing), d.budget.value);
    }
  }

  /** Exactly the consumers with an outdated document change. */
  lemma {:induction false} OutdatedChangeExactly(docs: seq<Doc>, usage: map<string, Usage>, pricing: Pricing, now: string, c: string)
    requires Proper(UsageOf(usage, c), pricing)
    ensures c in Evaluate(docs, usage, pricing, now) <==>
            exists i :: 0 <= i < |docs| && docs[i].consumer == c && Outdated(docs[i], usage, pricing)
  {
    ChangedExactly(docs, usage, pricing, now, c);
    forall i | 0 <= i < |docs| && docs[i].consumer == c
      ensures Due(docs[i], usage, pricing) <==> Outdated(docs[i], usage, pricing)
    {
      DueIsOutdated(docs[i], usage, pricing);
    }
  }

  /** What is stored of a downgrade: the level the cost calls for, the cost, its share of the budget
      to four decimals, and the time of the evaluation. */
  ghost predicate Records(a: Active, cost: real, budget: real, now: string)
    requires budget != 0.0
  {
    && a.level == Called(cost, budget) && a.usage == cost && a.evaluatedAt == now
    && -0.00005 <= a.pct - cost / budget <= 0.00005
    && IsWhole(a.pct * 10000.0)
  }

  lemma {:induction false} UpdateRecords(d: Doc, usage: map<string, Usage>, pricing: Pricing, now: string)
    requires Eligible(d) && Proper(UsageOf(usage, d.consumer), pricing)
    ensures var d', cost := Updated(d, usage, pricing, now), Cost(UsageOf(usage, d.consumer), pricing);
            && d' == d.(active := d'.active)
            && (d'.active.Some? <==> Called(cost, d.budget.value) > 0)
            && (d'.active.Some? ==> Records(d'.active.value, cost, d.budget.value, now))
  {
    var cost, budget := Cost(UsageOf(usage, d.consumer), pricing), d.budget.value;
    CostNonNegative(UsageOf(usage, d.consumer), pricing);
    LevelIsCalled(cost, budget);
    PercentIsClose(cost, budget);
  }

  lemma {:induction false} PercentIsClose(cost: real, budget: real)
    requires budget != 0.0
    ensures -0.00005 <= Percent(cost, budget) - cost / budget <= 0.00005
    ensures IsWhole(Percent(cost, budget) * 10000.0)
  {
    var x := cost / budget;
    var n := Round(x * 10000.0);
    RoundIsNearestEven(x * 10000.0, n);
    QuotientTimes(n as real, 10000.0);
  }

  /** Every changed document records its downgrade truly, or none if its cost calls for none. */
  lemma {:induction false} ChangesRecordTruly(docs: seq<Doc>, usage: map<string, Usage>, pricing: Pricing, now: string, c: string)
    requires Proper(UsageOf(usage, c), pricing) && c in Evaluate(docs, usage, pricing, now)
    ensures var d', cost := Evaluate(docs, usage, pricing, now)[c], Cost(UsageOf(usage, c), pricing);
            && d'.consumer == c && d'.budget.Some? && d'.budget.value != 0.0
            && (d'.active.Some? <==> Called(cost, d'.budget.value) > 0)
            && (d'.active.Some? ==> Records(d'.active.value, cost, d'.budget.value, now))
    decreases |docs|
  {
    var init, n := docs[..|docs| - 1], |docs| - 1;
    if Due(docs[n], usage, pricing) && docs[n].consumer == c {
      UpdateRecords(docs[n], usage, pricing, now);
    } else {
      ChangesRecordTruly(init, usage, pricing, now, c);
    }
  }
}
