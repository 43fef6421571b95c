/** Daily budget reconciliation: token usage is priced, compared with a consumer's budget and
    turned into a downgrade level. What the config-sync worker computes, as functions and loops. */
module Reconcile {
  import opened Numbers

  datatype Tokens = Tokens(prompt: int, completion: int)

  /** USD per thousand tokens. */
  datatype Rate = Rate(prompt: real, completion: real)

  type Usage = map<string, Tokens>

  type Pricing = map<string, Rate>

  // ---- cost ----

  function ModelCost(t: Tokens, model: string, pricing: Pricing): real {
    if model in pricing then
      Product(t.prompt as real / 1000.0, pricing[model].prompt) + Product(t.completion as real / 1000.0, pricing[model].completion)
    else 0.0
  }

  function Product(x: real, y: real): real { x * y }

  /** The sum over all models; the order in which they are added does not matter. */
  ghost function RawCost(u: Usage, pricing: Pricing): real {
    if u == map[] then 0.0
    else
      var m :| m in u;
      ModelCost(u[m], m, pricing) + RawCost(u - {m}, pricing)
  }

  lemma {:induction false} RawCostAnyOrder(u: Usage, pricing: Pricing, m: string)
    requires m in u
    ensures RawCost(u, pricing) == ModelCost(u[m], m, pricing) + RawCost(u - {m}, pricing)
    decreases |u|
  {
    var k :| k in u && RawCost(u, pricing) == ModelCost(u[k], k, pricing) + RawCost(u - {k}, pricing);
    if k != m {
      RawCostAnyOrder(u - {k}, pricing, m);
      RawCostAnyOrder(u - {m}, pricing, k);
      assert u - {k} - {m} == u - {m} - {k};
    }
  }

  ghost function Cost(u: Usage, pricing: Pricing): real { RoundTo(RawCost(u, pricing), 1000000.0) }

  /** The body of the loop over models: a model without a price contributes nothing. */
  method AddModel(total: real, toks: Tokens, model: string, pricing: Pricing) returns (sum: real)
    ensures sum == total + ModelCost(toks, model, pricing)
  {
    sum := total;
    if model !in pricing {
      return;
    }
    var rate := pricing[model];
    sum := sum + Product(toks.prompt as real / 1000.0, rate.prompt);
    sum := sum + Product(toks.completion as real / 1000.0, rate.completion);
  }

  /** cost_for. */
  method CostFor(u: Usage, pricing: Pricing) returns (cost: real)
    ensures cost == Cost(u, pricing)
  {
    var total, todo := 0.0, u;
    while todo != map[]
      invariant total + RawCost(todo, pricing) == RawCost(u, pricing)
      decreases |todo|
    {
      var model :| model in todo;
      RawCostAnyOrder(todo, pricing, model);
      total := AddModel(total, todo[model], model, pricing);
      todo := todo - {model};
    }
    cost := RoundTo(total, 1000000.0);
  }

  // ---- level ----

  function LevelFor(pct: real): nat { if pct >= 1.0 then 2 else if pct >= 0.8 then 1 else 0 }

  function Percent(cost: real, budget: real): real
    requires budget != 0.0
  {
    RoundTo(cost / budget, 10000.0)
  }

  ghost predicate AtMost(u: Usage, v: Usage) {
    forall m :: m in u ==> m in v && u[m].prompt <= v[m].prompt && u[m].completion <= v[m].completion
  }

  predicate Proper(u: Usage, pricing: Pricing) {
    && (forall m :: m in u ==> u[m].prompt >= 0 && u[m].completion >= 0)
    && (forall m :: m in pricing ==> pricing[m].prompt >= 0.0 && pricing[m].completion >= 0.0)
  }

  lemma ModelCostMonotone(t: Tokens, t': Tokens, m: string, pricing: Pricing)
    requires t.prompt <= t'.prompt && t.completion <= t'.completion
    requires forall k :: k in pricing ==> pricing[k].prompt >= 0.0 && pricing[k].completion >= 0.0
    ensures ModelCost(t, m, pricing) <= ModelCost(t', m, pricing)
  {
    if m in pricing {
      MulMonotone(t.prompt as real / 1000.0, t'.prompt as real / 1000.0, pricing[m].prompt);
      MulMonotone(t.completion as real / 1000.0, t'.completion as real / 1000.0, pricing[m].completion);
    }
  }

  lemma {:induction false} RawCostMonotone(u: Usage, v: Usage, pricing: Pricing)
    requires AtMost(u, v) && Proper(u, pricing) && Proper(v, pricing)
    ensures 0.0 <= RawCost(u, pricing) <= RawCost(v, pricing)
    decreases |v|
  {
    if v != map[] {
      var m :| m in v;
      RawCostAnyOrder(v, pricing, m);
      ModelCostMonotone(Tokens(0, 0), v[m], m, pricing);
      assert ModelCost(Tokens(0, 0), m, pricing) == 0.0;
      if m in u {
        RawCostAnyOrder(u, pricing, m);
        ModelCostMonotone(Tokens(0, 0), u[m], m, pricing);
        ModelCostMonotone(u[m], v[m], m, pricing);
        RawCostMonotone(u - {m}, v - {m}, pricing);
      } else {
        RawCostMonotone(u, v - {m}, pricing);
      }
    } else {
      assert u == map[];
    }
  }

  /** Despite both roundings, more tokens never lower the level, and a larger budget never raises it. */
  lemma LevelIsMonotone(u: Usage, v: Usage, pricing: Pricing, budget: real, larger: real)
    requires AtMost(u, v) && Proper(u, pricing) && Proper(v, pricing) && 0.0 < budget <= larger
    ensures LevelFor(Percent(Cost(u, pricing), larger)) <= LevelFor(Percent(Cost(v, pricing), budget))
  {
    RawCostMonotone(u, v, pricing);
    RoundToMonotone(RawCost(u, pricing), RawCost(v, pricing), 1000000.0);
    RoundToMonotone(0.0, RawCost(u, pricing), 1000000.0);
    var a, b := Cost(u, pricing), Cost(v, pricing);
    assert RoundTo(0.0, 1000000.0) == 0.0;
    QuotientsOrdered(a, b, budget, larger);
    RoundToMonotone(a / larger, b / budget, 10000.0);
  }

  lemma QuotientsOrdered(a: real, b: real, k: real, l: real)
    requires 0.0 <= a <= b && 0.0 < k <= l
    ensures a / l <= b / k
  {
    var q := a / l;
    assert q * l == a;
    assert q >= 0.0;
    MulMonotone(k, l, q);
    assert q * k <= b;
    DivMonotone(q * k, b, k);
    assert q * k / k == q;
  }

  // ---- evaluation ----

  datatype Active = Active(level: nat, usage: real, pct: real, evaluatedAt: string)

  /** A consumer_config document; `rest` stands for its other fields. */
  datatype Doc = Doc(consumer: string, budget: Option<real>, ladder: seq<string>, active: Option<Active>, rest: map<string, string>)

  predicate Eligible(d: Doc) {
    d.consumer != "" && d.budget.Some? && d.budget.value != 0.0 && d.ladder != []
  }

  function StoredLevel(d: Doc): nat { if d.active.Some? then d.active.value.level else 0 }

  function UsageOf(usage: map<string, Usage>, consumer: string): Usage {
    if consumer in usage then usage[consumer] else map[]
  }

  ghost function DueLevel(d: Doc, usage: map<string, Usage>, pricing: Pricing): nat
    requires Eligible(d)
  {
    LevelFor(Percent(Cost(UsageOf(usage, d.consumer), pricing), d.budget.value))
  }

  /** A document whose stored level is out of date. */
  ghost predicate Due(d: Doc, usage: map<string, Usage>, pricing: Pricing) {
    Eligible(d) && DueLevel(d, usage, pricing) != StoredLevel(d)
  }

  ghost function Updated(d: Doc, usage: map<string, Usage>, pricing: Pricing, now: string): Doc
    requires Eligible(d)
  {
    var cost := Cost(UsageOf(usage, d.consumer), pricing);
    var pct := Percent(cost, d.budget.value);
    d.(active := if LevelFor(pct) > 0 then Some(Active(LevelFor(pct), cost, pct, now)) else None)
  }

  ghost function Evaluate(docs: seq<Doc>, usage: map<string, Usage>, pricing: Pricing, now: string): map<string, Doc> {
    if docs == [] then map[]
    else
      var changed, last := Evaluate(docs[..|docs| - 1], usage, pricing, now), docs[|docs| - 1];
      if Due(last, usage, pricing) then changed[last.consumer := Updated(last, usage, pricing, now)] else changed
  }

  /** evaluate_downgrades. */
  method EvaluateDowngrades(docs: seq<Doc>, usage: map<string, Usage>, pricing: Pricing, now: string)
    returns (changed: map<string, Doc>)
    ensures changed == Evaluate(docs, usage, pricing, now)
  {
    changed := map[];
    for i := 0 to |docs|
      invariant changed == Evaluate(docs[..i], usage, pricing, now)
    {
      var doc := docs[i];
      assert docs[..i + 1][..i] == docs[..i];
      if !Eligible(doc) {
        continue;
      }
      var cost := CostFor(UsageOf(usage, doc.consumer), pricing);
      var pct := Percent(cost, doc.budget.value);
      var level := LevelFor(pct);
      if level == StoredLevel(doc) {
        continue;
      }
      var updated := doc.(active := None);
      if level > 0 {
        updated := updated.(active := Some(Active(level, cost, pct, now)));
      }
      changed := changed[doc.consumer := updated];
    }
    assert docs[..|docs|] == docs;
  }

  /** Exactly the consumers with an out-of-date document change. */
  lemma {:induction false} ChangedExactly(docs: seq<Doc>, usage: map<string, Usage>, pricing: Pricing, now: string, c: string)
    ensures c in Evaluate(docs, usage, pricing, now) <==>
            exists i :: 0 <= i < |docs| && docs[i].consumer == c && Due(docs[i], usage, pricing)
    decreases |docs|
  {
    if docs != [] {
      var init, n := docs[..|docs| - 1], |docs| - 1;
      ChangedExactly(init, usage, pricing, now, c);
      if Due(docs[n], usage, pricing) && docs[n].consumer == c {
        assert c in Evaluate(docs, usage, pricing, now);
      } else {
        assert c in Evaluate(docs, usage, pricing, now) <==> c in Evaluate(init, usage, pricing, now);
        forall i | 0 <= i < n
          ensures init[i] == docs[i]
        {
        }
      }
    }
  }

  /** Each change is an update of an out-of-date document: its level is the due one, its other
      fields are untouched, and level 0 leaves no downgrade state. */
  lemma {:induction false} ChangesAreUpdates(docs: seq<Doc>, usage: map<string, Usage>, pricing: Pricing, now: string, c: string)
    requires c in Evaluate(docs, usage, pricing, now)
    ensures var d' := Evaluate(docs, usage, pricing, now)[c];
            && Eligible(d') && d'.consumer == c && StoredLevel(d') == DueLevel(d', usage, pricing)
            && (d'.active.Some? <==> StoredLevel(d') > 0)
            && exists i :: 0 <= i < |docs| && Due(docs[i], usage, pricing) && d' == docs[i].(active := d'.active)
    decreases |docs|
  {
    var init, n := docs[..|docs| - 1], |docs| - 1;
    if Due(docs[n], usage, pricing) && docs[n].consumer == c {
      assert Evaluate(docs, usage, pricing, now)[c] == Updated(docs[n], usage, pricing, now);
    } else {
      ChangesAreUpdates(init, usage, pricing, now, c);
      var d' := Evaluate(docs, usage, pricing, now)[c];
      var i :| 0 <= i < |init| && Due(init[i], usage, pricing) && d' == init[i].(active := d'.active);
      assert docs[i] == init[i];
    }
  }

  /** The documents after the changed ones have been stored. */
  function Applied(docs: seq<Doc>, changed: map<string, Doc>): (r: seq<Doc>)
    ensures |r| == |docs|
  {
    seq(|docs|, i requires 0 <= i < |docs| => if docs[i].consumer in changed then changed[docs[i].consumer] else docs[i])
  }

  lemma {:induction false} NothingDue(docs: seq<Doc>, usage: map<string, Usage>, pricing: Pricing, now: string)
    requires forall i :: 0 <= i < |docs| ==> !Due(docs[i], usage, pricing)
    ensures Evaluate(docs, usage, pricing, now) == map[]
    decreases |docs|
  {
    if docs != [] {
      NothingDue(docs[..|docs| - 1], usage, pricing, now);
    }
  }

  /** Reconciliation is a fixpoint: evaluating the updated documents again changes nothing. */
  lemma ReconciliationSettles(docs: seq<Doc>, usage: map<string, Usage>, pricing: Pricing, now: string, later: string)
    ensures Evaluate(Applied(docs, Evaluate(docs, usage, pricing, now)), usage, pricing, later) == map[]
  {
    var changed := Evaluate(docs, usage, pricing, now);
    var after := Applied(docs, changed);
    forall i | 0 <= i < |after|
      ensures !Due(after[i], usage, pricing)
    {
      var c := docs[i].consumer;
      ChangedExactly(docs, usage, pricing, now, c);
      if c in changed {
        ChangesAreUpdates(docs, usage, pricing, now, c);
      }
    }
    NothingDue(after, usage, pricing, later);
  }
}
