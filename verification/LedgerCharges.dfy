/** What a settlement charges, and the law that joins precall and postcall: a call that stays within
    what it was granted never costs more than it reserved. */
module LedgerCharges {
  import opened Numbers
  import opened AdmissionRule
  import opened RunLedger
  import opened LedgerSafety

  /** The charge: the input and output tokens at the rates of the model named, or else of the model
      the call was admitted for; nothing for a failed call, nor for a model without rates. */
  lemma {:induction false} ChargeIsPriced(cfg: Settings, held: Reservation, body: PostcallRequest)
    ensures var model := if body.model != "" then body.model else held.model;
            && (body.failed ==> SettleCost(cfg, held, body) == 0)
            && (!body.failed && model in cfg.prices ==>
                  SettleCost(cfg, held, body)
                  == Round(At(body.inputTokens, cfg.prices[model].inputMicros) + At(body.outputTokens, cfg.prices[model].outputMicros)))
            && (model !in cfg.prices ==> SettleCost(cfg, held, body) == 0)
  {
  }

  /** The settlement stays within a grant: at its model, with no more tokens than estimated and granted. */
  predicate StaysWithin(body: PostcallRequest, model: string, input: nat, cap: int) {
    (body.model == "" || body.model == model) && body.inputTokens <= input && body.outputTokens <= cap
  }

  lemma {:induction false} FewerTokensCostLess(p: Prices, input: nat, input': nat, output: int, output': int)
    requires p.inputMicros >= 0.0 && p.outputMicros >= 0.0 && input <= input' && output <= output'
    ensures WorstCase(p, input, output) <= WorstCase(p, input', output')
  {
    MulMonotone(input as real, input' as real, p.inputMicros);
    MulMonotone(output as real, output' as real, p.outputMicros);
    RoundMonotone(ExactCost(p, input, output), ExactCost(p, input', output'));
  }

  /** A call settled within its grant costs at most what was reserved for that grant. */
  lemma {:induction false} WithinGrantFits(cfg: Settings, held: Reservation, body: PostcallRequest, input: nat, cap: int)
    requires ValidSettings(cfg) && cap >= 0 && StaysWithin(body, held.model, input, cap)
    requires held.reserved == WorstCase(PricesFor(cfg, held.model), input, cap)
    ensures SettleCost(cfg, held, body) <= held.reserved
  {
    FewerTokensCostLess(PricesFor(cfg, held.model), body.inputTokens, input, body.outputTokens, cap);
    CostNonNegative(PricesFor(cfg, held.model), input, cap);
  }

  // ---- over whole runs ----

  /** A call as it was granted: its id, its model, its estimated input and the cap on its output. */
  datatype Grant = Grant(id: nat, model: string, input: nat, cap: int)

  /** The calls granted over a run, in order; of the grants of an id the last counts. */
  function Grants(cfg: Settings, ops: seq<Op>): seq<Grant> {
    if ops == [] then []
    else
      var init, op := ops[..|ops| - 1], ops[|ops| - 1];
      var s := Run(cfg, init).store;
      Grants(cfg, init)
      + (if !Commits(cfg, s, op) then []
         else
           var d := Verdict(cfg, s.run.value, op.seen, op.req).decision;
           [Grant(s.nextId, op.req.model, op.req.call.estInput, if d.maxOutput.Some? then d.maxOutput.value else 0)])
  }

  /** Each settlement of the run stays within the grant of its reservation. */
  ghost predicate AllStayWithin(cfg: Settings, ops: seq<Op>) {
    ops == [] || (
      var init, op := ops[..|ops| - 1], ops[|ops| - 1];
      && AllStayWithin(cfg, init)
      && (op.Charge? && op.body.reservationId in Run(cfg, init).store.reservations ==>
            forall g :: g in Grants(cfg, init) && g.id == op.body.reservationId ==>
              StaysWithin(op.body, g.model, g.input, g.cap)))
  }

  /** Each live reservation holds the price of a grant, and ids are not reused. */
  ghost predicate PricedGrants(cfg: Settings, s: Store, grants: seq<Grant>) {
    && (forall g :: g in grants ==> g.id < s.nextId)
    && (forall id :: id in s.reservations ==> exists g :: g in grants && Backs(cfg, g, id, s.reservations[id]))
  }

  ghost predicate Backs(cfg: Settings, g: Grant, id: nat, held: Reservation) {
    && g.id == id && g.model == held.model && g.cap >= 0
    && held.reserved == WorstCase(PricesFor(cfg, g.model), g.input, g.cap)
  }

  lemma {:induction false} AdmittedCap(cfg: Settings, h: RunHash, seen: seq<string>, req: PrecallRequest)
    requires ValidSettings(cfg) && Verdict(cfg, h, seen, req).Admits()
    ensures var d := Verdict(cfg, h, seen, req).decision;
            && d.maxOutput.Some? && d.maxOutput.value >= 0
            && d.reserve == WorstCase(PricesFor(cfg, req.model), req.call.estInput, d.maxOutput.value)
  {
    var run := MapRun(h, seen, req.step);
    if !Repeating(run, req.call, cfg.policies) {
      ShrinkingIsSoundAndOptimal(run, PricesFor(cfg, req.model), req.call, cfg.policies);
    }
  }

  lemma {:induction false} AdmitKeepsPriced(cfg: Settings, s: Store, req: PrecallRequest, d: Decision, grants: seq<Grant>, g: Grant)
    requires PricedGrants(cfg, s, grants) && s.run.Some?
    requires Backs(cfg, g, s.nextId, Reservation(d.reserve, req.model, s.now + cfg.reservationTtl))
    ensures PricedGrants(cfg, Reserve(cfg, s, req, d), grants + [g])
  {
    var s' := Reserve(cfg, s, req, d);
    assert forall x :: x in grants + [g] ==> x in grants || x == g;
    forall id | id in s'.reservations
      ensures exists x :: x in grants + [g] && Backs(cfg, x, id, s'.reservations[id])
    {
      if id == s.nextId {
        assert g in grants + [g];
      } else {
        var x :| x in grants && Backs(cfg, x, id, s.reservations[id]);
        assert x in grants + [g];
      }
    }
  }

  lemma {:induction false} RunsArePriced(cfg: Settings, ops: seq<Op>)
    requires ValidSettings(cfg)
    ensures PricedGrants(cfg, Run(cfg, ops).store, Grants(cfg, ops))
    decreases |ops|
  {
    if ops != [] {
      var init, op := ops[..|ops| - 1], ops[|ops| - 1];
      RunsArePriced(cfg, init);
      var s := Run(cfg, init).store;
      if Commits(cfg, s, op) {
        AdmittedCap(cfg, s.run.value, op.seen, op.req);
        var d := Verdict(cfg, s.run.value, op.seen, op.req).decision;
        AdmitKeepsPriced(cfg, s, op.req, d, Grants(cfg, init), Grant(s.nextId, op.req.model, op.req.call.estInput, d.maxOutput.value));
      } else {
        QuietKeepsPriced(cfg, s, op, Grants(cfg, init));
      }
    }
  }

  lemma {:induction false} QuietKeepsPriced(cfg: Settings, s: Store, op: Op, grants: seq<Grant>)
    requires PricedGrants(cfg, s, grants) && !Commits(cfg, s, op)
    ensures PricedGrants(cfg, Apply(cfg, s, op), grants)
  {
    var s' := Apply(cfg, s, op);
    assert s'.nextId == s.nextId && forall id :: id in s'.reservations ==> id in s.reservations && s'.reservations[id] == s.reservations[id];
  }

  /** If every settlement stays within its grant, no run overruns, and only the progress guard can take
      one beyond its budget. */
  lemma {:induction false} WithinGrantsNothingOverruns(cfg: Settings, ops: seq<Op>)
    requires ValidSettings(cfg) && AllStayWithin(cfg, ops)
    ensures Overrun(Run(cfg, ops).past.settled) == 0
    decreases |ops|
  {
    if ops != [] {
      var init, op := ops[..|ops| - 1], ops[|ops| - 1];
      WithinGrantsNothingOverruns(cfg, init);
      RunsArePriced(cfg, init);
      var w := Run(cfg, init);
      if op.Charge? && op.body.reservationId in w.store.reservations {
        ChargeWithinGrant(cfg, w, op.body, Grants(cfg, init));
      }
    }
  }

  lemma {:induction false} ChargeWithinGrant(cfg: Settings, w: World, body: PostcallRequest, grants: seq<Grant>)
    requires ValidSettings(cfg) && PricedGrants(cfg, w.store, grants) && body.reservationId in w.store.reservations
    requires forall g :: g in grants && g.id == body.reservationId ==> StaysWithin(body, g.model, g.input, g.cap)
    requires Overrun(w.past.settled) == 0
    ensures Overrun(Step(cfg, w, Charge(body)).past.settled) == 0
  {
    var held := w.store.reservations[body.reservationId];
    var g :| g in grants && Backs(cfg, g, body.reservationId, held);
    WithinGrantFits(cfg, held, body, g.input, g.cap);
    SettledCounts(w.past.settled, Settled(body.reservationId, held.reserved, SettleCost(cfg, held, body)));
  }

  /** Hence such a run exceeds its budget by less than its largest guarded reservation. */
  lemma {:induction false} WithinGrantsBudgetHolds(cfg: Settings, ops: seq<Op>)
    requires ValidSettings(cfg) && Healthy(cfg, ops) && AllStayWithin(cfg, ops) && Run(cfg, ops).store.run.Some?
    ensures var h, past := Run(cfg, ops).store.run.value, Run(cfg, ops).past;
            h.spend + h.inflight <= h.budget + Max(0, LargestGuarded(past.admitted) - 1)
  {
    WithinGrantsNothingOverruns(cfg, ops);
    BudgetHolds(cfg, ops);
  }
}
