/** Safety of the run ledger over whole runs: money and concurrency are conserved, the budget
    holds up to two named terms, policies keep their promises, and the prompt window is the
    tail of the admission history. A run is any sequence of atomic effects; what precall
    decides may rest on any prompt list. */
module LedgerSafety {
  import opened Numbers
  import opened AdmissionRule
  import opened RunLedger

  /** An admitted call: its reservation, whether the progress guard admitted it, whether it was
      steered to the cheap model, and whether the spend was at or past the threshold by then. */
  datatype Admitted = Admitted(id: nat, amount: int, guarded: bool, overridden: bool, late: bool)

  datatype Settled = Settled(id: nat, reserved: int, cost: int)

  /** What happened to the run that is in the store: its admissions and settlements in order.
      `done` are the ids settled, `hashes` the prompt hashes admitted since the prompt list last
      expired. */
  datatype History = History(admitted: seq<Admitted>, settled: seq<Settled>, done: set<nat>, hashes: seq<string>)

  datatype World = World(store: Store, past: History)

  const START := World(EMPTY_STORE, History([], [], {}, []))

  function Record(cfg: Settings, w: World, op: Op): History {
    var s, past := w.store, w.past;
    match op
    case Create(_, _) => if s.run.Some? then past else History([], [], {}, past.hashes)
    case Admit(req, seen) =>
      if !Commits(cfg, s, op) then past
      else
        var d := Verdict(cfg, s.run.value, seen, req).decision;
        var run := MapRun(s.run.value, seen, req.step);
        var call := Admitted(s.nextId, d.reserve, Repeating(run, req.call, cfg.policies), d.modelOverride.Some?, AtThreshold(run, cfg.policies));
        past.(admitted := past.admitted + [call],
              hashes := past.hashes + [req.call.promptHash])
    case Charge(body) =>
      if body.reservationId !in s.reservations then past
      else
        var held := s.reservations[body.reservationId];
        past.(settled := past.settled + [Settled(body.reservationId, held.reserved, SettleCost(cfg, held, body))],
              done := past.done + {body.reservationId})
    case Flag => past
    case Tick(dt) =>
      if s.prompts != [] && s.promptExpiry <= s.now + dt then past.(hashes := []) else past
  }

  function Step(cfg: Settings, w: World, op: Op): World {
    World(Apply(cfg, w.store, op), Record(cfg, w, op))
  }

  function Run(cfg: Settings, ops: seq<Op>): World {
    if ops == [] then START else Step(cfg, Run(cfg, ops[..|ops| - 1]), ops[|ops| - 1])
  }

  // ---- sums over a history ----

  /** The total weight of the admissions that are not settled, live or expired. */
  function Open(admitted: seq<Admitted>, done: set<nat>, weight: Admitted -> int): int {
    if admitted == [] then 0
    else
      var last := admitted[|admitted| - 1];
      Open(admitted[..|admitted| - 1], done, weight) + (if last.id in done then 0 else weight(last))
  }

  function Amount(a: Admitted): int { a.amount }
  function One(a: Admitted): int { 1 }
  function Unguarded(a: Admitted): int { if a.guarded then 0 else 1 }

  function LargestGuarded(admitted: seq<Admitted>): int {
    if admitted == [] then 0
    else
      var last, rest := admitted[|admitted| - 1], LargestGuarded(admitted[..|admitted| - 1]);
      if last.guarded then Max(last.amount, rest) else rest
  }

  function Overrides(admitted: seq<Admitted>): nat {
    if admitted == [] then 0
    else
      var rest := Overrides(admitted[..|admitted| - 1]);
      if admitted[|admitted| - 1].overridden then rest + 1 else rest
  }

  function Charged(settled: seq<Settled>): int {
    if settled == [] then 0 else Charged(settled[..|settled| - 1]) + settled[|settled| - 1].cost
  }

  /** How far settled calls cost more than they had reserved, in all. */
  function Overrun(settled: seq<Settled>): nat {
    if settled == [] then 0
    else
      var last := settled[|settled| - 1];
      Overrun(settled[..|settled| - 1]) + Max(0, last.cost - last.reserved)
  }

  predicate Ordered(admitted: seq<Admitted>, nextId: nat) {
    && (forall i, j :: 0 <= i < j < |admitted| ==> admitted[i].id < admitted[j].id)
    && (forall i :: 0 <= i < |admitted| ==> admitted[i].id < nextId)
  }

  lemma {:induction false} SettlingCloses(admitted: seq<Admitted>, done: set<nat>, k: nat, n: nat, weight: Admitted -> int)
    requires Ordered(admitted, n) && k < |admitted| && admitted[k].id !in done
    ensures Open(admitted, done + {admitted[k].id}, weight) == Open(admitted, done, weight) - weight(admitted[k])
    decreases |admitted|
  {
    var init := admitted[..|admitted| - 1];
    if k < |init| {
      SettlingCloses(init, done, k, n, weight);
    } else {
      SettlingOther(init, done, admitted[k].id, weight);
    }
  }

  lemma {:induction false} SettlingOther(admitted: seq<Admitted>, done: set<nat>, id: nat, weight: Admitted -> int)
    requires forall a :: a in admitted ==> a.id != id
    ensures Open(admitted, done + {id}, weight) == Open(admitted, done, weight)
    decreases |admitted|
  {
    if admitted != [] {
      SettlingOther(admitted[..|admitted| - 1], done, id, weight);
    }
  }

  lemma {:induction false} OpenNonNegative(admitted: seq<Admitted>, done: set<nat>)
    requires forall a :: a in admitted ==> a.amount >= 0
    ensures Open(admitted, done, Amount) >= 0
    ensures 0 <= Open(admitted, done, Unguarded) <= Open(admitted, done, One)
    decreases |admitted|
  {
    if admitted != [] {
      OpenNonNegative(admitted[..|admitted| - 1], done);
    }
  }

  // ---- the invariant ----

  /** Settings under which the service may run: non-negative prices and a window of at least 1. */
  ghost predicate ValidSettings(cfg: Settings) {
    && cfg.policies.loopWindow >= 1
    && cfg.policies.defaultMaxOutput >= 0
    && forall m :: m in cfg.prices ==> cfg.prices[m].inputMicros >= 0.0 && cfg.prices[m].outputMicros >= 0.0
  }

  ghost predicate Backed(admitted: seq<Admitted>, id: nat, amount: int) {
    exists k :: 0 <= k < |admitted| && admitted[k].id == id && admitted[k].amount == amount
  }

  /** Each live reservation is an admitted, unsettled call of the run in the store. */
  ghost predicate Tracked(s: Store, past: History) {
    && Ordered(past.admitted, s.nextId)
    && (forall a :: a in past.admitted ==> a.amount >= 0)
    && (forall id :: id in past.done ==> id < s.nextId)
    && (forall id :: id in s.reservations ==> id !in past.done && Backed(past.admitted, id, s.reservations[id].reserved))
  }

  ghost predicate Conserved(h: RunHash, past: History) {
    && h.inflight == Open(past.admitted, past.done, Amount)
    && h.concurrent == Open(past.admitted, past.done, One)
    && h.spend == Charged(past.settled) >= 0
  }

  ghost predicate WithinBudget(h: RunHash, past: History) {
    h.spend + h.inflight <= h.budget + Max(0, LargestGuarded(past.admitted) - 1) + Overrun(past.settled)
  }

  ghost predicate PoliciesKept(pol: Policies, h: RunHash, past: History) {
    && (h.halt ==> h.spend >= h.budget && h.haltReason == "cost_budget")
    && (past.admitted != [] ==> 0 <= h.steps < pol.maxSteps)
    && Overrides(past.admitted) <= (if h.steered then 1 else 0)
    && Open(past.admitted, past.done, Unguarded) <= Max(0, pol.maxConcurrent)
  }

  ghost predicate Safe(cfg: Settings, w: World) {
    && Tracked(w.store, w.past)
    && (w.store.run.None? ==> w.store.reservations == map[])
    && (w.store.run.Some? ==>
          && Conserved(w.store.run.value, w.past)
          && WithinBudget(w.store.run.value, w.past)
          && PoliciesKept(cfg.policies, w.store.run.value, w.past))
  }

  /** The run hash is gone while one of its reservations is still alive. */
  predicate Orphaned(s: Store) { s.run.None? && s.reservations != map[] }

  /** A run in which no reservation outlives its run hash, and budgets are positive. */
  predicate Healthy(cfg: Settings, ops: seq<Op>) {
    ops == [] || (
      && Healthy(cfg, ops[..|ops| - 1])
      && (ops[|ops| - 1].Create? ==> ops[|ops| - 1].budget > 0)
      && !Orphaned(Run(cfg, ops).store))
  }

  /** What admission alone guarantees about the reservation it makes. */
  lemma {:induction false} AdmissionBounds(cfg: Settings, h: RunHash, seen: seq<string>, req: PrecallRequest)
    requires ValidSettings(cfg)
    requires Verdict(cfg, h, seen, req).Admits()
    ensures var d := Verdict(cfg, h, seen, req).decision;
            && d.reserve >= 0
            && h.spend + h.inflight < h.budget
            && Max(h.steps, req.step) < cfg.policies.maxSteps
            && (d.modelOverride.Some? ==>
                  !h.steered && h.spend as real >= h.budget as real * cfg.policies.guardThreshold)
            && (!Repeating(MapRun(h, seen, req.step), req.call, cfg.policies) ==>
                  h.concurrent < cfg.policies.maxConcurrent && h.spend + h.inflight + d.reserve <= h.budget)
  {
    var run, p := MapRun(h, seen, req.step), PricesFor(cfg, req.model);
    if Repeating(run, req.call, cfg.policies) {
      CostNonNegative(p, req.call.estInput, cfg.policies.defaultMaxOutput);
    } else {
      ShrinkingIsSoundAndOptimal(run, p, req.call, cfg.policies);
    }
  }

  lemma OpenAppend(admitted: seq<Admitted>, a: Admitted, done: set<nat>, weight: Admitted -> int)
    requires a.id !in done
    ensures Open(admitted + [a], done, weight) == Open(admitted, done, weight) + weight(a)
  {
    assert (admitted + [a])[..|admitted|] == admitted;
  }

  lemma AppendedCounts(admitted: seq<Admitted>, a: Admitted)
    ensures LargestGuarded(admitted + [a])
            == if a.guarded then Max(a.amount, LargestGuarded(admitted)) else LargestGuarded(admitted)
    ensures Overrides(admitted + [a]) == Overrides(admitted) + (if a.overridden then 1 else 0)
  {
    assert (admitted + [a])[..|admitted|] == admitted;
  }

  /** An admission, reduced to its numbers: h becomes h' and a is added to the history. */
  ghost predicate Admission(pol: Policies, h: RunHash, h': RunHash, a: Admitted) {
    && h' == h.(inflight := h.inflight + a.amount, concurrent := h.concurrent + 1, steps := h'.steps, steered := h'.steered)
    && a.amount >= 0 && h.spend + h.inflight < h.budget
    && h.steps <= h'.steps < pol.maxSteps
    && (a.overridden ==> !h.steered && h'.steered) && (h.steered ==> h'.steered)
    && (!a.guarded ==> h.concurrent < pol.maxConcurrent && h.spend + h.inflight + a.amount <= h.budget)
  }

  lemma AdmissionKeepsMoney(pol: Policies, h: RunHash, h': RunHash, a: Admitted, past: History, past': History)
    requires Admission(pol, h, h', a) && a.id !in past.done
    requires past'.admitted == past.admitted + [a] && past'.settled == past.settled && past'.done == past.done
    requires Conserved(h, past) && WithinBudget(h, past)
    ensures Conserved(h', past') && WithinBudget(h', past')
  {
    OpenAppend(past.admitted, a, past.done, Amount);
    OpenAppend(past.admitted, a, past.done, One);
    AppendedCounts(past.admitted, a);
  }

  lemma AdmissionKeepsPolicies(pol: Policies, h: RunHash, h': RunHash, a: Admitted, past: History, past': History)
    requires Admission(pol, h, h', a) && a.id !in past.done
    requires past'.admitted == past.admitted + [a] && past'.done == past.done
    requires forall x :: x in past.admitted ==> x.amount >= 0
    requires Conserved(h, past) && PoliciesKept(pol, h, past) && (past.admitted == [] ==> 0 <= h'.steps)
    ensures PoliciesKept(pol, h', past')
  {
    OpenAppend(past.admitted, a, past.done, Unguarded);
    AppendedCounts(past.admitted, a);
    OpenNonNegative(past.admitted, past.done);
  }

  lemma AdmissionKeepsTracked(s: Store, s': Store, a: Admitted, past: History, past': History)
    requires Tracked(s, past) && a.id == s.nextId && a.amount >= 0
    requires past'.admitted == past.admitted + [a] && past'.done == past.done && s'.nextId == s.nextId + 1
    requires s'.reservations.Keys == s.reservations.Keys + {a.id} && s'.reservations[a.id].reserved == a.amount
    requires forall id :: id in s.reservations && id != a.id ==> s'.reservations[id] == s.reservations[id]
    ensures Tracked(s', past')
  {
    BackedAppend(past.admitted, a);
    assert forall id :: id in past.done ==> id < s'.nextId;
    assert forall x :: x in past'.admitted ==> x in past.admitted || x == a;
  }

  lemma BackedAppend(admitted: seq<Admitted>, a: Admitted)
    ensures Backed(admitted + [a], a.id, a.amount)
    ensures forall id, amount :: Backed(admitted, id, amount) ==> Backed(admitted + [a], id, amount)
  {
    assert (admitted + [a])[|admitted|] == a;
    forall id, amount | Backed(admitted, id, amount)
      ensures Backed(admitted + [a], id, amount)
    {
      var k :| 0 <= k < |admitted| && admitted[k].id == id && admitted[k].amount == amount;
      assert (admitted + [a])[k] == admitted[k];
    }
  }

  /** The admission an operation makes, when it commits. */
  function AdmittedBy(cfg: Settings, s: Store, op: Op): Admitted
    requires Commits(cfg, s, op)
  {
    var d := Verdict(cfg, s.run.value, op.seen, op.req).decision;
    var run := MapRun(s.run.value, op.seen, op.req.step);
    Admitted(s.nextId, d.reserve, Repeating(run, op.req.call, cfg.policies), d.modelOverride.Some?, AtThreshold(run, cfg.policies))
  }

  lemma {:induction false} CommitIsAdmission(cfg: Settings, w: World, op: Op)
    requires ValidSettings(cfg) && Commits(cfg, w.store, op)
    ensures var s, s', a := w.store, Apply(cfg, w.store, op), AdmittedBy(cfg, w.store, op);
            && s'.run.Some? && Admission(cfg.policies, s.run.value, s'.run.value, a) && s'.nextId == s.nextId + 1
            && s'.reservations == s.reservations[a.id := Reservation(a.amount, op.req.model, s.now + cfg.reservationTtl)]
            && Record(cfg, w, op).admitted == w.past.admitted + [a] && Record(cfg, w, op).settled == w.past.settled && Record(cfg, w, op).done == w.past.done
            && s'.run.value.steps >= op.req.step
  {
    AdmissionBounds(cfg, w.store.run.value, op.seen, op.req);
  }

  lemma {:induction false} AdmitKeepsSafe(cfg: Settings, w: World, op: Op)
    requires ValidSettings(cfg) && Safe(cfg, w) && Commits(cfg, w.store, op)
    ensures Safe(cfg, World(Apply(cfg, w.store, op), Record(cfg, w, op)))
  {
    var s, s', past, past', a := w.store, Apply(cfg, w.store, op), w.past, Record(cfg, w, op), AdmittedBy(cfg, w.store, op);
    CommitIsAdmission(cfg, w, op);
    AdmissionKeepsTracked(s, s', a, past, past');
    AdmissionKeepsMoney(cfg.policies, s.run.value, s'.run.value, a, past, past');
    AdmissionKeepsPolicies(cfg.policies, s.run.value, s'.run.value, a, past, past');
  }

  lemma SettledCounts(settled: seq<Settled>, x: Settled)
    ensures Charged(settled + [x]) == Charged(settled) + x.cost
    ensures Overrun(settled + [x]) == Overrun(settled) + Max(0, x.cost - x.reserved)
  {
    assert (settled + [x])[..|settled|] == settled;
  }

  /** The run hash after a settlement. */
  function ChargedHash(h: RunHash, x: Settled): RunHash {
    h.(inflight := h.inflight - x.reserved, concurrent := h.concurrent - 1, spend := h.spend + x.cost)
  }

  lemma ChargeKeepsMoney(n: nat, h: RunHash, past: History, past': History, x: Settled, k: nat)
    requires Ordered(past.admitted, n) && k < |past.admitted| && past.admitted[k].id == x.id && x.id !in past.done
    requires past.admitted[k].amount == x.reserved && x.cost >= 0
    requires past'.admitted == past.admitted && past'.settled == past.settled + [x] && past'.done == past.done + {x.id}
    requires Conserved(h, past) && WithinBudget(h, past)
    ensures Conserved(ChargedHash(h, x), past') && WithinBudget(ChargedHash(h, x), past')
  {
    SettlingCloses(past.admitted, past.done, k, n, Amount);
    SettlingCloses(past.admitted, past.done, k, n, One);
    SettledCounts(past.settled, x);
  }

  lemma ChargeKeepsPolicies(pol: Policies, n: nat, h: RunHash, past: History, past': History, x: Settled, k: nat)
    requires Ordered(past.admitted, n) && k < |past.admitted| && past.admitted[k].id == x.id && x.id !in past.done
    requires past'.admitted == past.admitted && past'.done == past.done + {x.id} && x.cost >= 0
    requires PoliciesKept(pol, h, past)
    ensures PoliciesKept(pol, ChargedHash(h, x), past')
  {
    SettlingCloses(past.admitted, past.done, k, n, Unguarded);
  }

  lemma SettleCostNonNegative(cfg: Settings, held: Reservation, body: PostcallRequest)
    requires ValidSettings(cfg)
    ensures SettleCost(cfg, held, body) >= 0
  {
    CostNonNegative(PricesFor(cfg, if body.model != "" then body.model else held.model), body.inputTokens, body.outputTokens);
  }

  lemma ChargeKeepsSafe(cfg: Settings, w: World, body: PostcallRequest)
    requires ValidSettings(cfg) && Safe(cfg, w) && body.reservationId in w.store.reservations
    ensures Safe(cfg, Step(cfg, w, Charge(body)))
  {
    var s, past, id := w.store, w.past, body.reservationId;
    var held := s.reservations[id];
    var x := Settled(id, held.reserved, SettleCost(cfg, held, body));
    SettleCostNonNegative(cfg, held, body);
    ChargedIsSafe(cfg, s, past, s.run.value, x, Step(cfg, w, Charge(body)));
  }

  lemma ChargedIsSafe(cfg: Settings, s: Store, past: History, h: RunHash, x: Settled, w': World)
    requires Safe(cfg, World(s, past)) && s.run == Some(h) && x.id in s.reservations
    requires x.reserved == s.reservations[x.id].reserved && x.cost >= 0
    requires w'.store.run == Some(ChargedHash(h, x)) && w'.store.nextId == s.nextId
    requires w'.store.reservations == s.reservations - {x.id}
    requires w'.past == past.(settled := past.settled + [x], done := past.done + {x.id})
    ensures Safe(cfg, w')
  {
    assert Backed(past.admitted, x.id, x.reserved);
    var k :| 0 <= k < |past.admitted| && past.admitted[k].id == x.id && past.admitted[k].amount == x.reserved;
    ChargeKeepsMoney(s.nextId, h, past, w'.past, x, k);
    ChargeKeepsPolicies(cfg.policies, s.nextId, h, past, w'.past, x, k);
  }

  lemma {:induction false} StepKeepsSafe(cfg: Settings, w: World, op: Op)
    requires ValidSettings(cfg) && Safe(cfg, w)
    requires op.Create? ==> op.budget > 0
    requires !Orphaned(Step(cfg, w, op).store)
    ensures Safe(cfg, Step(cfg, w, op))
  {
    if op.Admit? && Commits(cfg, w.store, op) {
      AdmitKeepsSafe(cfg, w, op);
    } else if op.Charge? && op.body.reservationId in w.store.reservations {
      ChargeKeepsSafe(cfg, w, op.body);
    } else if !op.Admit? && !op.Charge? {
      QuietStepKeepsSafe(cfg, w, op);
    }
  }

  lemma QuietStepKeepsSafe(cfg: Settings, w: World, op: Op)
    requires ValidSettings(cfg) && Safe(cfg, w) && (op.Create? || op.Flag? || op.Tick?)
    requires op.Create? ==> op.budget > 0
    requires !Orphaned(Step(cfg, w, op).store)
    ensures Safe(cfg, Step(cfg, w, op))
  {
    var w' := Step(cfg, w, op);
    assert w'.store.nextId == w.store.nextId;
    assert w.store.run.Some? ==> w'.past.admitted == w.past.admitted && w'.past.settled == w.past.settled && w'.past.done == w.past.done;
    assert Tracked(w'.store, w'.past);
  }

  // ---- main results ----

  lemma {:induction false} HealthyRunsAreSafe(cfg: Settings, ops: seq<Op>)
    requires ValidSettings(cfg) && Healthy(cfg, ops)
    ensures Safe(cfg, Run(cfg, ops))
    decreases |ops|
  {
    if ops != [] {
      HealthyRunsAreSafe(cfg, ops[..|ops| - 1]);
      StepKeepsSafe(cfg, Run(cfg, ops[..|ops| - 1]), ops[|ops| - 1]);
    }
  }

  /** Budget safety: over every run, what is spent and reserved exceeds the budget by at most the
      largest progress-guard reservation less one, plus what settled calls overran. */
  lemma {:induction false} BudgetHolds(cfg: Settings, ops: seq<Op>)
    requires ValidSettings(cfg) && Healthy(cfg, ops) && Run(cfg, ops).store.run.Some?
    ensures var h, past := Run(cfg, ops).store.run.value, Run(cfg, ops).past;
            && h.spend + h.inflight <= h.budget + Max(0, LargestGuarded(past.admitted) - 1) + Overrun(past.settled)
            && ((forall a :: a in past.admitted ==> !a.guarded) && (forall x :: x in past.settled ==> x.cost <= x.reserved)
                ==> h.spend + h.inflight <= h.budget)
  {
    HealthyRunsAreSafe(cfg, ops);
    var past := Run(cfg, ops).past;
    if (forall a :: a in past.admitted ==> !a.guarded) && (forall x :: x in past.settled ==> x.cost <= x.reserved) {
      NoGuardedNoOverrun(past.admitted, past.settled);
    }
  }

  lemma {:induction false} NoGuardedNoOverrun(admitted: seq<Admitted>, settled: seq<Settled>)
    requires forall a :: a in admitted ==> !a.guarded
    requires forall x :: x in settled ==> x.cost <= x.reserved
    ensures LargestGuarded(admitted) == 0 && Overrun(settled) == 0
    decreases |admitted| + |settled|
  {
    if admitted != [] {
      NoGuardedNoOverrun(admitted[..|admitted| - 1], settled);
    }
    if settled != [] {
      NoGuardedNoOverrun(admitted, settled[..|settled| - 1]);
    }
  }

  /** Conservation: the hash's counters are sums over the admissions and settlements of the run,
      expired reservations included among the open ones. */
  lemma {:induction false} CountersAreSums(cfg: Settings, ops: seq<Op>)
    requires ValidSettings(cfg) && Healthy(cfg, ops) && Run(cfg, ops).store.run.Some?
    ensures Conserved(Run(cfg, ops).store.run.value, Run(cfg, ops).past)
  {
    HealthyRunsAreSafe(cfg, ops);
  }

  /** The halt flag, the step cap, the one-time steer and the fan-out cap, over every run. */
  lemma {:induction false} PoliciesHold(cfg: Settings, ops: seq<Op>)
    requires ValidSettings(cfg) && Healthy(cfg, ops) && Run(cfg, ops).store.run.Some?
    ensures PoliciesKept(cfg.policies, Run(cfg, ops).store.run.value, Run(cfg, ops).past)
  {
    HealthyRunsAreSafe(cfg, ops);
  }

  /** Once the spend reaches the budget every precall is halted with cost_budget, whether or not
      the flag has been written and whatever prompts were read. */
  lemma SpentOutHalts(cfg: Settings, ops: seq<Op>, seen: seq<string>, req: PrecallRequest)
    requires ValidSettings(cfg) && Healthy(cfg, ops) && Run(cfg, ops).store.run.Some?
    requires Run(cfg, ops).store.run.value.spend >= Run(cfg, ops).store.run.value.budget
    ensures Verdict(cfg, Run(cfg, ops).store.run.value, seen, req) == HaltWith("cost_budget")
  {
    HealthyRunsAreSafe(cfg, ops);
    var w := Run(cfg, ops);
    OpenNonNegative(w.past.admitted, w.past.done);
  }

  /** The run has the same budget and at least the spend, steps, flags, admissions and settlements
      it had. */
  ghost predicate Grown(w: World, w': World) {
    && w.store.run.Some? && w'.store.run.Some?
    && var h, h' := w.store.run.value, w'.store.run.value;
       (&& h'.budget == h.budget && h'.spend >= h.spend && h'.steps >= h.steps
        && (h.halt ==> h'.halt) && (h.steered ==> h'.steered)
        && w.past.admitted <= w'.past.admitted && w.past.settled <= w'.past.settled)
  }

  lemma RunsOnlyProgress(cfg: Settings, w: World, op: Op)
    requires ValidSettings(cfg) && w.store.run.Some? && Apply(cfg, w.store, op).run.Some?
    ensures Grown(w, Step(cfg, w, op))
  {
    if op.Charge? && op.body.reservationId in w.store.reservations {
      SettleCostNonNegative(cfg, w.store.reservations[op.body.reservationId], op.body);
    }
  }

  /** The run hash is there after `ops` and after every step of `more`. */
  predicate KeepsHash(cfg: Settings, ops: seq<Op>, more: seq<Op>) {
    Run(cfg, ops + more).store.run.Some? && (more == [] || KeepsHash(cfg, ops, more[..|more| - 1]))
  }

  lemma RunMore(cfg: Settings, ops: seq<Op>, more: seq<Op>)
    requires more != []
    ensures Run(cfg, ops + more) == Step(cfg, Run(cfg, ops + more[..|more| - 1]), more[|more| - 1])
  {
    assert (ops + more)[..|ops + more| - 1] == ops + more[..|more| - 1];
  }

  /** As long as its hash lives a run only grows, whatever is done to it. */
  lemma {:induction false} LiveRunsOnlyProgress(cfg: Settings, ops: seq<Op>, more: seq<Op>)
    requires ValidSettings(cfg) && KeepsHash(cfg, ops, more)
    ensures Grown(Run(cfg, ops), Run(cfg, ops + more))
    decreases |more|
  {
    if more == [] {
      assert ops + more == ops;
    } else {
      var init := more[..|more| - 1];
      LiveRunsOnlyProgress(cfg, ops, init);
      RunMore(cfg, ops, more);
      RunsOnlyProgress(cfg, Run(cfg, ops + init), more[|more| - 1]);
    }
  }

  /** Once the spend has reached the budget, every precall in every continuation that keeps the hash
      alive is halted with cost_budget. */
  lemma {:induction false} SpentOutStaysHalted(cfg: Settings, ops: seq<Op>, more: seq<Op>, seen: seq<string>, req: PrecallRequest)
    requires ValidSettings(cfg) && Healthy(cfg, ops + more) && KeepsHash(cfg, ops, more)
    requires Run(cfg, ops).store.run.Some? && Run(cfg, ops).store.run.value.spend >= Run(cfg, ops).store.run.value.budget
    ensures Verdict(cfg, Run(cfg, ops + more).store.run.value, seen, req) == HaltWith("cost_budget")
  {
    LiveRunsOnlyProgress(cfg, ops, more);
    SpentOutHalts(cfg, ops + more, seen, req);
  }

  // ---- key expiry ----

  predicate TtlsOrdered(cfg: Settings, ops: seq<Op>) {
    && 1 <= cfg.reservationTtl <= cfg.runTtl
    && forall op :: op in ops && op.Create? ==> op.ttl >= cfg.reservationTtl && op.budget > 0
  }

  /** A live reservation has a future, and its run hash has at least as long. */
  predicate Covered(cfg: Settings, s: Store) {
    forall id :: id in s.reservations ==>
      && s.run.Some?
      && s.now < s.reservations[id].expiry <= s.runExpiry
      && s.reservations[id].expiry <= s.now + cfg.reservationTtl
  }

  /** Expiry ordering: if every TTL given to the run hash is at least the reservation TTL, a live
      reservation never outlives its run hash, so no run is unhealthy. */
  lemma {:induction false} OrderedTtlsKeepRunsHealthy(cfg: Settings, ops: seq<Op>)
    requires TtlsOrdered(cfg, ops)
    ensures Covered(cfg, Run(cfg, ops).store)
    ensures Healthy(cfg, ops)
    decreases |ops|
  {
    if ops != [] {
      var init, op := ops[..|ops| - 1], ops[|ops| - 1];
      OrderedTtlsKeepRunsHealthy(cfg, init);
      assert op in ops;
      StepKeepsCovered(cfg, Run(cfg, init).store, op);
    }
  }

  lemma StepKeepsCovered(cfg: Settings, s: Store, op: Op)
    requires 1 <= cfg.reservationTtl <= cfg.runTtl && (op.Create? ==> op.ttl >= cfg.reservationTtl)
    requires Covered(cfg, s)
    ensures Covered(cfg, Apply(cfg, s, op))
  {
  }

  /** The store after a run with budget 5 is created and one call has been admitted. */
  function Admitting(cfg: Settings, ttl: int, req: PrecallRequest): Store {
    Apply(cfg, Apply(cfg, EMPTY_STORE, Create(5, ttl)), Admit(req, []))
  }

  /** The call is admitted by a run with budget 5 that nothing has happened to. */
  predicate EasilyAdmitted(cfg: Settings, req: PrecallRequest) {
    && cfg.policies.loopWindow >= 1 && cfg.policies.loopRepeats > 0
    && req.step < cfg.policies.maxSteps && cfg.policies.maxSteps > 0 && cfg.policies.maxConcurrent > 0
    && 0 <= WorstCase(PricesFor(cfg, req.model), req.call.estInput, Requested(req.call, cfg.policies)) <= 5
  }

  lemma {:induction false} AdmittingReserves(cfg: Settings, ttl: int, req: PrecallRequest)
    requires EasilyAdmitted(cfg, req)
    ensures var s := Admitting(cfg, ttl, req);
            && s.run.Some? && s.runExpiry == cfg.runTtl && s.now == 0
            && s.run.value.concurrent == 1 && s.run.value.budget == 5 && s.run.value.inflight >= 0
            && 0 in s.reservations && s.reservations[0].expiry == cfg.reservationTtl
            && s.reservations[0].reserved == s.run.value.inflight
  {
    var s1 := Apply(cfg, EMPTY_STORE, Create(5, ttl));
    assert LastOf<string>([], cfg.policies.loopWindow) == [];
    assert Commits(cfg, s1, Admit(req, []));
  }

  /** A store in which the run hash has expired under a reservation: right after the admission if the
      run TTL is the short one, else after create_run has been called again. */
  function Expired(cfg: Settings, ttl: nat, req: PrecallRequest): Store
    requires cfg.runTtl >= 1
  {
    if cfg.runTtl < cfg.reservationTtl then Apply(cfg, Admitting(cfg, ttl, req), Tick(cfg.runTtl))
    else Apply(cfg, Apply(cfg, Admitting(cfg, ttl, req), Create(5, ttl)), Tick(ttl))
  }

  /** What a postcall does when its run hash has expired under its reservation, whichever TTL is too
      short: it rebuilds a run with no budget and a negative reservation count, halted from the start. */
  lemma {:induction false} ShortTtlCorruptsTheRun(cfg: Settings, ttl: nat, req: PrecallRequest)
    requires EasilyAdmitted(cfg, req) && ttl >= 1 && cfg.runTtl >= 1
    requires cfg.runTtl < cfg.reservationTtl || ttl < cfg.reservationTtl
    ensures var s := Expired(cfg, ttl, req);
            var h := PostCall(cfg, s, PostcallRequest(0, 0, 0, "", true)).run;
            && Orphaned(s)
            && h.Some? && h.value.concurrent == -1 && h.value.budget == 0 && h.value.halt
  {
    AdmittingReserves(cfg, ttl, req);
    assert 0 in Expired(cfg, ttl, req).reservations;
  }

  /** Every create_run of the run names the same time to live and some budget. */
  predicate CreatesUse(ops: seq<Op>, ttl: int) {
    forall op :: op in ops && op.Create? ==> op.ttl == ttl && op.budget > 0
  }

  /** The ordering of the TTLs is exactly what is needed: no reservation outlives its run hash in any
      run if and only if neither the service's run TTL nor the one asked for at creation is shorter
      than the reservation TTL. */
  lemma TtlOrderingIsExact(cfg: Settings, ttl: nat, req: PrecallRequest)
    requires EasilyAdmitted(cfg, req) && cfg.reservationTtl >= 1 && cfg.runTtl >= 1 && ttl >= 1
    ensures (forall ops :: CreatesUse(ops, ttl) ==> Healthy(cfg, ops)) <==>
            cfg.reservationTtl <= cfg.runTtl && cfg.reservationTtl <= ttl
  {
    if cfg.reservationTtl <= cfg.runTtl && cfg.reservationTtl <= ttl {
      forall ops | CreatesUse(ops, ttl)
        ensures Healthy(cfg, ops)
      {
        OrderedTtlsKeepRunsHealthy(cfg, ops);
      }
    } else {
      var ops := OrphaningRun(cfg, ttl, req);
      assert CreatesUse(ops, ttl) && !Healthy(cfg, ops);
    }
  }

  /** A wait that outlasts the run hash but not reservation 0 orphans it. */
  lemma {:induction false} WaitOrphans(cfg: Settings, ops: seq<Op>, wait: nat)
    requires var s := Run(cfg, ops).store;
             s.run.Some? && 0 in s.reservations && s.runExpiry <= s.now + wait < s.reservations[0].expiry
    ensures !Healthy(cfg, ops + [Tick(wait)])
  {
    RunSnoc(cfg, ops, Tick(wait));
    assert 0 in Run(cfg, ops + [Tick(wait)]).store.reservations;
  }

  lemma {:induction false} AdmittingRun(cfg: Settings, ttl: nat, req: PrecallRequest)
    ensures Run(cfg, [] + [Create(5, ttl)] + [Admit(req, [])]).store == Admitting(cfg, ttl, req)
  {
    RunSnoc(cfg, [], Create(5, ttl));
    RunSnoc(cfg, [] + [Create(5, ttl)], Admit(req, []));
  }

  lemma {:induction false} OrphaningRun(cfg: Settings, ttl: nat, req: PrecallRequest) returns (ops: seq<Op>)
    requires EasilyAdmitted(cfg, req) && cfg.runTtl >= 1 && ttl >= 1
    requires cfg.runTtl < cfg.reservationTtl || ttl < cfg.reservationTtl
    ensures CreatesUse(ops, ttl) && !Healthy(cfg, ops)
  {
    var admitted := [] + [Create(5, ttl)] + [Admit(req, [])];
    if cfg.runTtl < cfg.reservationTtl {
      AdmittingReserves(cfg, ttl, req);
      AdmittingRun(cfg, ttl, req);
      WaitOrphans(cfg, admitted, cfg.runTtl);
      ops := admitted + [Tick(cfg.runTtl)];
    } else {
      RecreatedRun(cfg, ttl, req);
      WaitOrphans(cfg, admitted + [Create(5, ttl)], ttl);
      ops := admitted + [Create(5, ttl)] + [Tick(ttl)];
    }
  }

  lemma {:induction false} RecreatedRun(cfg: Settings, ttl: nat, req: PrecallRequest)
    requires EasilyAdmitted(cfg, req)
    ensures var s := Run(cfg, [] + [Create(5, ttl)] + [Admit(req, [])] + [Create(5, ttl)]).store;
            && s.run.Some? && s.runExpiry == ttl && s.now == 0
            && 0 in s.reservations && s.reservations[0].expiry == cfg.reservationTtl
  {
    AdmittingReserves(cfg, ttl, req);
    AdmittingRun(cfg, ttl, req);
    RunSnoc(cfg, [] + [Create(5, ttl)] + [Admit(req, [])], Create(5, ttl));
  }

  lemma RunSnoc(cfg: Settings, ops: seq<Op>, op: Op)
    ensures Run(cfg, ops + [op]) == Step(cfg, Run(cfg, ops), op)
  {
    assert (ops + [op])[..|ops|] == ops;
  }

  // ---- the prompt window ----

  /** The newest min(w, |hashes|) admitted hashes, newest first. */
  function Newest(hashes: seq<string>, w: nat): seq<string> {
    seq(Min(w, |hashes|), i requires 0 <= i < Min(w, |hashes|) => hashes[|hashes| - 1 - i])
  }

  /** Sliding window: pushing and trimming keeps the list equal to the tail of the history. */
  lemma {:induction false} PromptListIsNewestHashes(cfg: Settings, ops: seq<Op>)
    requires cfg.policies.loopWindow >= 1
    ensures Run(cfg, ops).store.prompts == Newest(Run(cfg, ops).past.hashes, cfg.policies.loopWindow)
    decreases |ops|
  {
    if ops != [] {
      PromptListIsNewestHashes(cfg, ops[..|ops| - 1]);
      var w, op := Run(cfg, ops[..|ops| - 1]), ops[|ops| - 1];
      if Commits(cfg, w.store, op) {
        assert Step(cfg, w, op).store.prompts == LRange([op.req.call.promptHash] + w.store.prompts, cfg.policies.loopWindow - 1);
      }
    }
  }

  lemma {:induction false} NewestCountsTheTail(hashes: seq<string>, w: nat)
    requires w >= 1
    ensures multiset(Newest(hashes, w)) == multiset(LastOf(hashes, w))
    decreases w
  {
    if hashes == [] {
      assert Newest(hashes, w) == [] && LastOf(hashes, w) == [];
    } else {
      var init, last := hashes[..|hashes| - 1], hashes[|hashes| - 1];
      if w == 1 {
        assert Newest(hashes, w) == [last] && LastOf(hashes, w) == [last];
      } else {
        NewestCountsTheTail(init, w - 1);
        assert Newest(hashes, w) == [last] + Newest(init, w - 1);
        assert LastOf(hashes, w) == LastOf(init, w - 1) + [last];
      }
    }
  }

  /** The prompt hashes of all calls a run of effects admitted, in order. */
  function AdmittedHashes(cfg: Settings, ops: seq<Op>): seq<string> {
    if ops == [] then []
    else
      var init, op := ops[..|ops| - 1], ops[|ops| - 1];
      AdmittedHashes(cfg, init) + (if Commits(cfg, Run(cfg, init).store, op) then [op.req.call.promptHash] else [])
  }

  /** The history of hashes is the tail of all hashes ever admitted, and all of them unless the
      prompt list has expired. */
  lemma {:induction false} HashesAreAdmissions(cfg: Settings, ops: seq<Op>)
    ensures var w, all := Run(cfg, ops), AdmittedHashes(cfg, ops);
            && |w.past.hashes| <= |all| && w.past.hashes == all[|all| - |w.past.hashes|..]
            && (w.store.promptEpoch == 0 ==> w.past.hashes == all)
    decreases |ops|
  {
    if ops != [] {
      HashesAreAdmissions(cfg, ops[..|ops| - 1]);
    }
  }

  /** The progress guard's verdict on the list precall reads is the one computed from the history
      since the list last expired; if it never did, from the hashes of all calls ever admitted. */
  lemma {:induction false} ProgressGuardSeesHistory(cfg: Settings, ops: seq<Op>, h: RunHash, req: PrecallRequest)
    requires cfg.policies.loopWindow >= 1
    ensures var w := Run(cfg, ops);
            var answer := Repeating(MapRun(h, LRange(w.store.prompts, cfg.policies.loopWindow - 1), req.step), req.call, cfg.policies);
            && (answer <==>
                multiset(LastOf(w.past.hashes, cfg.policies.loopWindow))[req.call.promptHash] >= cfg.policies.loopRepeats)
            && (w.store.promptEpoch == 0 ==> (answer <==>
                multiset(LastOf(AdmittedHashes(cfg, ops), cfg.policies.loopWindow))[req.call.promptHash] >= cfg.policies.loopRepeats))
  {
    var w, n := Run(cfg, ops), cfg.policies.loopWindow;
    PromptListIsNewestHashes(cfg, ops);
    NewestIsSeenWhole(w.past.hashes, n);
    HashesAreAdmissions(cfg, ops);
  }

  lemma NewestIsSeenWhole(hashes: seq<string>, w: nat)
    requires w >= 1
    ensures multiset(LastOf(LRange(Newest(hashes, w), w - 1), w)) == multiset(LastOf(hashes, w))
  {
    NewestCountsTheTail(hashes, w);
    assert LRange(Newest(hashes, w), w - 1) == Newest(hashes, w);
    assert LastOf(Newest(hashes, w), w) == Newest(hashes, w);
  }
}
