/** How far the run ledger's promises reach: exactly which steps take a run beyond its budget, runs
    that use the budget bound up, and a run whose one steer is lost. */
module LedgerLimits {
  import opened Numbers
  import opened AdmissionRule
  import opened RunLedger
  import opened LedgerSafety

  // ---- exactly when the budget is exceeded ----

  predicate Within(s: Store) {
    s.run.Some? ==> s.run.value.spend + s.run.value.inflight <= s.run.value.budget
  }

  function Left(h: RunHash): int { h.budget - h.spend - h.inflight }

  /** The steps that exceed a budget: an admission by the progress guard, or a settlement, for more
      than is left. Both can be told before the step. */
  predicate Breaches(cfg: Settings, s: Store, op: Op) {
    s.run.Some? && (
      match op
      case Admit(req, seen) =>
        && Commits(cfg, s, op)
        && Repeating(MapRun(s.run.value, seen, req.step), req.call, cfg.policies)
        && WorstCase(PricesFor(cfg, req.model), req.call.estInput, cfg.policies.defaultMaxOutput) > Left(s.run.value)
      case Charge(body) =>
        && body.reservationId in s.reservations
        && SettleCost(cfg, s.reservations[body.reservationId], body) - s.reservations[body.reservationId].reserved > Left(s.run.value)
      case _ => false)
  }

  /** A step takes a run that is within its budget beyond it if and only if it is one of these. */
  lemma {:induction false} StepExceedsExactly(cfg: Settings, s: Store, op: Op)
    requires ValidSettings(cfg) && Within(s) && (op.Create? ==> op.budget > 0)
    requires s.run.None? ==> s.reservations == map[]
    ensures Within(Apply(cfg, s, op)) <==> !Breaches(cfg, s, op)
  {
    if Commits(cfg, s, op) {
      AdmissionBounds(cfg, s.run.value, op.seen, op.req);
    }
  }

  predicate AlwaysWithin(cfg: Settings, ops: seq<Op>) {
    Within(Run(cfg, ops).store) && (ops == [] || AlwaysWithin(cfg, ops[..|ops| - 1]))
  }

  predicate NeverBreaches(cfg: Settings, ops: seq<Op>) {
    ops == [] || (
      && NeverBreaches(cfg, ops[..|ops| - 1])
      && !Breaches(cfg, Run(cfg, ops[..|ops| - 1]).store, ops[|ops| - 1]))
  }

  /** A run stays within its budget from beginning to end if and only if no step of it is a
      guarded admission or a settlement for more than is left. */
  lemma {:induction false} BudgetIsExceededExactly(cfg: Settings, ops: seq<Op>)
    requires ValidSettings(cfg) && Healthy(cfg, ops)
    ensures AlwaysWithin(cfg, ops) <==> NeverBreaches(cfg, ops)
    decreases |ops|
  {
    if ops != [] {
      var init, op := ops[..|ops| - 1], ops[|ops| - 1];
      BudgetIsExceededExactly(cfg, init);
      if AlwaysWithin(cfg, init) {
        StepExceedsExactly(cfg, Run(cfg, init).store, op);
      }
    }
  }

  /** A run whose hash is flagged is halted for the reason it was flagged with, whatever is asked. */
  lemma {:induction false} FlaggedHashIsHalted(cfg: Settings, h: RunHash, seen: seq<string>, req: PrecallRequest)
    requires h.halt && h.haltReason != ""
    ensures Verdict(cfg, h, seen, req).Returns? && !Verdict(cfg, h, seen, req).Admits()
    ensures Verdict(cfg, h, seen, req).decision.haltReason == Some(h.haltReason)
  {
  }

  // ---- how long keys live ----

  /** Left alone after an operation, a run hash lives for just the time to live that operation gave it:
      the one asked for at creation, the service's after an admission or a settlement. */
  lemma {:induction false} RunLivesExactly(cfg: Settings, s: Store, op: Op, dt: nat)
    requires op.Create? || Commits(cfg, s, op) || (op.Charge? && op.body.reservationId in s.reservations)
    ensures Elapse(Apply(cfg, s, op), dt).run.Some? <==> dt < if op.Create? then op.ttl else cfg.runTtl
  {
  }

  /** An admission gives its reservation the service's reservation TTL and the prompt list, with its
      own prompt in front, the run TTL. */
  lemma {:induction false} AdmissionLivesExactly(cfg: Settings, s: Store, op: Op, dt: nat)
    requires Commits(cfg, s, op) && cfg.policies.loopWindow >= 1
    ensures var s' := Elapse(Apply(cfg, s, op), dt);
            && (s.nextId in s'.reservations <==> dt < cfg.reservationTtl)
            && (s'.prompts != [] <==> dt < cfg.runTtl)
            && (s'.prompts != [] ==> s'.prompts[0] == op.req.call.promptHash)
  {
  }

  // ---- runs in which the progress guard has something to say ----

  function Copies(hash: string, n: nat): (s: seq<string>)
    ensures |s| == n
  {
    if n == 0 then [] else [hash] + Copies(hash, n - 1)
  }

  /** The prompt list a precall reads after a run. */
  function Seen(cfg: Settings, ops: seq<Op>): seq<string> {
    LRange(Run(cfg, ops).store.prompts, cfg.policies.loopWindow - 1)
  }

  /** A run is created and n calls are admitted, one after the other, each failing and settled at no
      cost before the next. */
  function WarmUp(cfg: Settings, budget: int, free: PrecallRequest, n: nat): seq<Op> {
    if n == 0 then [] + [Create(budget, cfg.runTtl)]
    else
      var before := WarmUp(cfg, budget, free, n - 1);
      before + [Admit(free, Seen(cfg, before))] + [Charge(PostcallRequest(n - 1, 0, 0, "", true))]
  }

  /** The call costs nothing and is inside the step cap. */
  predicate IsFree(cfg: Settings, req: PrecallRequest) {
    PricesFor(cfg, req.model) == Prices(0.0, 0.0) && req.step < cfg.policies.maxSteps
  }

  predicate GuardCanAnswer(cfg: Settings) {
    && 1 <= cfg.policies.loopRepeats <= cfg.policies.loopWindow
    && cfg.policies.maxConcurrent >= 1
  }

  /** n calls with the same prompt have been admitted, nothing is reserved or spent. */
  ghost predicate Warm(cfg: Settings, w: World, budget: int, hash: string, n: nat) {
    && w.store.run.Some?
    && w.store.run.value == RunHash(budget, 0, 0, false, "", w.store.run.value.steps, 0, w.store.run.value.steered)
    && (if n == 0 then w.store.run.value.steps == 0 else w.store.run.value.steps < cfg.policies.maxSteps)
    && (cfg.policies.guardThreshold > 0.0 ==> !w.store.run.value.steered)
    && w.store.prompts == Copies(hash, n) && w.store.nextId == n
    && LargestGuarded(w.past.admitted) == 0 && Overrun(w.past.settled) == 0
    && (cfg.policies.guardThreshold > 0.0 ==> Overrides(w.past.admitted) == 0)
  }

  lemma {:induction false} CopiesCount(hash: string, n: nat)
    ensures multiset(Copies(hash, n))[hash] == n
  {
    if n > 0 {
      CopiesCount(hash, n - 1);
    }
  }

  lemma {:induction false} CopiesCommute(hash: string, n: nat)
    ensures Copies(hash, n + 1) == Copies(hash, n) + [hash]
  {
    if n > 0 {
      CopiesCommute(hash, n - 1);
    }
  }

  lemma WindowOnCopies(hash: string, n: nat, w: nat)
    requires 1 <= w && n <= w
    ensures LRange(Copies(hash, n), w - 1) == Copies(hash, n) == LastOf(Copies(hash, n), w)
    ensures LRange([hash] + Copies(hash, n), w - 1) == Copies(hash, Min(n + 1, w))
  {
    if n == w {
      CopiesCommute(hash, n);
    }
    assert [hash] + Copies(hash, n) == Copies(hash, n + 1);
  }

  /** What the progress guard says of n copies of a prompt. */
  lemma {:induction false} GuardOnCopies(cfg: Settings, h: RunHash, req: PrecallRequest, n: nat)
    requires GuardCanAnswer(cfg) && n <= cfg.policies.loopRepeats
    ensures var hash := req.call.promptHash;
            && LRange(Copies(hash, n), cfg.policies.loopWindow - 1) == Copies(hash, n)
            && LRange([hash] + Copies(hash, n), cfg.policies.loopWindow - 1)
               == Copies(hash, Min(n + 1, cfg.policies.loopWindow))
            && (Repeating(MapRun(h, Copies(hash, n), req.step), req.call, cfg.policies) <==> n >= cfg.policies.loopRepeats)
  {
    WindowOnCopies(req.call.promptHash, n, cfg.policies.loopWindow);
    CopiesCount(req.call.promptHash, n);
  }

  lemma BelowThreshold(run: RunState, pol: Policies)
    requires run.spend == 0 && run.budget >= 1 && pol.guardThreshold > 0.0
    ensures !AtThreshold(run, pol)
  {
    MulStrict(0.0, pol.guardThreshold, run.budget as real);
  }

  lemma {:induction false} FreeVerdict(cfg: Settings, h: RunHash, req: PrecallRequest, n: nat)
    requires GuardCanAnswer(cfg) && IsFree(cfg, req) && n < cfg.policies.loopRepeats
    requires h == RunHash(h.budget, 0, 0, false, "", h.steps, 0, h.steered) && h.budget >= 1 && h.steps < cfg.policies.maxSteps
    ensures var v := Verdict(cfg, h, Copies(req.call.promptHash, n), req);
            && v.Admits() && v.decision.reserve == 0 && v.decision.modelOverride.Some? == v.decision.inject.Some?
            && (cfg.policies.guardThreshold > 0.0 ==> v.decision.modelOverride.None?)
  {
    var run := MapRun(h, Copies(req.call.promptHash, n), req.step);
    GuardOnCopies(cfg, h, req, n);
    if cfg.policies.guardThreshold > 0.0 {
      BelowThreshold(run, cfg.policies);
    }
  }

  /** The world after a call: warm, but for the reservation that is still open. */
  ghost predicate Asked(cfg: Settings, w: World, budget: int, req: PrecallRequest, n: nat) {
    && w.store.run.Some? && w.store.run.value.concurrent == 1
    && Warm(cfg, World(w.store.(run := Some(w.store.run.value.(concurrent := 0))), w.past), budget, req.call.promptHash, n + 1)
    && n in w.store.reservations && w.store.reservations[n].reserved == 0 && w.store.reservations[n].model == req.model
  }

  /** The reservation of a free call. */
  lemma {:induction false} ReservesFree(cfg: Settings, w: World, budget: int, free: PrecallRequest, n: nat, d: Decision, a: Admitted, w': World)
    requires GuardCanAnswer(cfg) && n < cfg.policies.loopRepeats && free.step < cfg.policies.maxSteps
    requires Warm(cfg, w, budget, free.call.promptHash, n) && w'.store == Reserve(cfg, w.store, free, d)
    requires w'.past.admitted == w.past.admitted + [a] && w'.past.settled == w.past.settled
    requires d.reserve == 0 && d.modelOverride.Some? == d.inject.Some?
    requires cfg.policies.guardThreshold > 0.0 ==> d.modelOverride.None?
    requires !a.guarded && a.overridden == d.modelOverride.Some?
    ensures Asked(cfg, w', budget, free, n)
  {
    GuardOnCopies(cfg, w.store.run.value, free, n);
    AppendedCounts(w.past.admitted, a);
  }

  /** A free call is admitted without the guard. */
  lemma {:induction false} FreeAdmission(cfg: Settings, w: World, budget: int, free: PrecallRequest, n: nat)
    requires GuardCanAnswer(cfg) && IsFree(cfg, free) && budget >= 1 && n < cfg.policies.loopRepeats
    requires Warm(cfg, w, budget, free.call.promptHash, n)
    ensures var hash := free.call.promptHash;
            var op := Admit(free, Copies(hash, n));
            var w' := Step(cfg, w, op);
            Commits(cfg, w.store, op) && Asked(cfg, w', budget, free, n)
  {
    var h, op := w.store.run.value, Admit(free, Copies(free.call.promptHash, n));
    FreeVerdict(cfg, h, free, n);
    GuardOnCopies(cfg, h, free, n);
    ReservesFree(cfg, w, budget, free, n, Verdict(cfg, h, op.seen, free).decision, AdmittedBy(cfg, w.store, op), Step(cfg, w, op));
  }

  lemma {:induction false} SettlingAsked(cfg: Settings, w: World, budget: int, req: PrecallRequest, n: nat, body: PostcallRequest)
    requires Asked(cfg, w, budget, req, n) && body.reservationId == n
    ensures var w', cost := Step(cfg, w, Charge(body)), SettleCost(cfg, Reservation(0, req.model, 0), body);
            && w'.store.run == Some(w.store.run.value.(concurrent := 0, spend := cost))
            && w'.store.prompts == w.store.prompts && w'.store.nextId == w.store.nextId
            && w'.past.admitted == w.past.admitted
            && Overrun(w'.past.settled) == Overrun(w.past.settled) + Max(0, cost)
  {
    SettlingOpen(cfg, w, body, req.model);
  }

  /** Settling a reservation of 0 micros. */
  lemma SettlingOpen(cfg: Settings, w: World, body: PostcallRequest, model: string)
    requires w.store.run.Some? && body.reservationId in w.store.reservations
    requires w.store.reservations[body.reservationId].reserved == 0 && w.store.reservations[body.reservationId].model == model
    ensures var h, w', cost := w.store.run.value, Step(cfg, w, Charge(body)), SettleCost(cfg, Reservation(0, model, 0), body);
            && w'.store.run == Some(h.(concurrent := h.concurrent - 1, spend := h.spend + cost))
            && w'.store.prompts == w.store.prompts && w'.store.nextId == w.store.nextId
            && w'.past.admitted == w.past.admitted
            && Overrun(w'.past.settled) == Overrun(w.past.settled) + Max(0, cost)
  {
    SettledCounts(w.past.settled, Settled(body.reservationId, 0, SettleCost(cfg, w.store.reservations[body.reservationId], body)));
  }

  lemma {:induction false} WarmUpIsWarm(cfg: Settings, budget: int, free: PrecallRequest, n: nat)
    requires GuardCanAnswer(cfg) && IsFree(cfg, free) && budget >= 1 && n <= cfg.policies.loopRepeats
    ensures WarmRun(cfg, WarmUp(cfg, budget, free, n), budget, free, n)
    decreases n
  {
    if n == 0 {
      FirstIsWarm(cfg, budget, free);
    } else {
      WarmUpIsWarm(cfg, budget, free, n - 1);
      var before := WarmUp(cfg, budget, free, n - 1);
      RunAsks(cfg, before, budget, free, n - 1);
      RunSettles(cfg, before + [Admit(free, Seen(cfg, before))], budget, free, n - 1);
    }
  }

  ghost predicate WarmRun(cfg: Settings, ops: seq<Op>, budget: int, free: PrecallRequest, n: nat) {
    && Healthy(cfg, ops) && Warm(cfg, Run(cfg, ops), budget, free.call.promptHash, n)
    && Seen(cfg, ops) == Copies(free.call.promptHash, n)
  }

  ghost predicate AskedRun(cfg: Settings, ops: seq<Op>, budget: int, free: PrecallRequest, n: nat) {
    Healthy(cfg, ops) && Asked(cfg, Run(cfg, ops), budget, free, n)
  }

  lemma {:induction false} RunAsks(cfg: Settings, ops: seq<Op>, budget: int, free: PrecallRequest, n: nat)
    requires GuardCanAnswer(cfg) && IsFree(cfg, free) && budget >= 1 && n < cfg.policies.loopRepeats
    requires WarmRun(cfg, ops, budget, free, n)
    ensures AskedRun(cfg, ops + [Admit(free, Seen(cfg, ops))], budget, free, n)
  {
    FreeAdmission(cfg, Run(cfg, ops), budget, free, n);
    HealthySnoc(cfg, ops, Admit(free, Seen(cfg, ops)));
  }

  lemma SettledIsAtLoss(cfg: Settings, w: World, w': World, budget: int, ask: PrecallRequest, cost: int)
    requires cfg.policies.loopRepeats >= 1 && Asked(cfg, w, budget, ask, cfg.policies.loopRepeats - 1)
    requires w'.store.run == Some(w.store.run.value.(concurrent := 0, spend := cost))
    requires w'.store.prompts == w.store.prompts && w'.past.admitted == w.past.admitted
    requires cfg.policies.guardThreshold > 0.0 && budget as real * cfg.policies.guardThreshold <= cost as real && cost < budget
    ensures AtLoss(cfg, w', budget, ask)
  {
  }

  lemma {:induction false} RunSettles(cfg: Settings, ops: seq<Op>, budget: int, free: PrecallRequest, n: nat)
    requires GuardCanAnswer(cfg) && n < cfg.policies.loopRepeats
    requires AskedRun(cfg, ops, budget, free, n)
    ensures WarmRun(cfg, ops + [Charge(PostcallRequest(n, 0, 0, "", true))], budget, free, n + 1)
  {
    var body := PostcallRequest(n, 0, 0, "", true);
    SettlingAsked(cfg, Run(cfg, ops), budget, free, n, body);
    HealthySnoc(cfg, ops, Charge(body));
    WarmIsSeen(cfg, Run(cfg, ops + [Charge(body)]), budget, free, n + 1);
  }

  lemma FirstIsWarm(cfg: Settings, budget: int, free: PrecallRequest)
    requires budget >= 1
    ensures WarmRun(cfg, WarmUp(cfg, budget, free, 0), budget, free, 0)
  {
    HealthySnoc(cfg, [], Create(budget, cfg.runTtl));
    assert Copies(free.call.promptHash, 0) == [];
  }

  lemma WarmIsSeen(cfg: Settings, w: World, budget: int, free: PrecallRequest, n: nat)
    requires GuardCanAnswer(cfg) && n <= cfg.policies.loopRepeats && Warm(cfg, w, budget, free.call.promptHash, n)
    ensures LRange(w.store.prompts, cfg.policies.loopWindow - 1) == Copies(free.call.promptHash, n)
  {
    GuardOnCopies(cfg, w.store.run.value, free, n);
  }

  lemma HealthySnoc(cfg: Settings, ops: seq<Op>, op: Op)
    requires Healthy(cfg, ops) && (op.Create? ==> op.budget > 0) && Step(cfg, Run(cfg, ops), op).store.run.Some?
    ensures Run(cfg, ops + [op]) == Step(cfg, Run(cfg, ops), op) && Healthy(cfg, ops + [op])
  {
    RunSnoc(cfg, ops, op);
    assert (ops + [op])[..|ops|] == ops;
  }

  // ---- the bound is reached ----

  /** A prompt repeated until the guard answers, and then a call with a price. */
  function GuardedRun(cfg: Settings, budget: int, free: PrecallRequest, dear: PrecallRequest): seq<Op>
    requires cfg.policies.loopRepeats >= 1
  {
    var before := WarmUp(cfg, budget, free, cfg.policies.loopRepeats);
    before + [Admit(dear, Seen(cfg, before))]
  }

  function GuardPrice(cfg: Settings, req: PrecallRequest): int {
    WorstCase(PricesFor(cfg, req.model), req.call.estInput, cfg.policies.defaultMaxOutput)
  }

  lemma {:induction false} GuardedAdmission(cfg: Settings, w: World, budget: int, req: PrecallRequest)
    requires GuardCanAnswer(cfg) && budget >= 1 && req.step < cfg.policies.maxSteps
    requires Warm(cfg, w, budget, req.call.promptHash, cfg.policies.loopRepeats)
    ensures var n: nat := cfg.policies.loopRepeats;
            var op := Admit(req, Copies(req.call.promptHash, n));
            var w', g := Step(cfg, w, op), GuardPrice(cfg, req);
            && w'.store.run.Some? && w'.store.run.value.budget == budget
            && w'.store.run.value.spend == 0 && w'.store.run.value.inflight == g
            && LargestGuarded(w'.past.admitted) == Max(g, 0) && w'.past.settled == w.past.settled
            && n in w'.store.reservations && w'.store.reservations[n].reserved == g
            && w'.store.reservations[n].model == req.model
  {
    var n: nat := cfg.policies.loopRepeats;
    GuardOnCopies(cfg, w.store.run.value, req, n);
    var op := Admit(req, Copies(req.call.promptHash, n));
    assert Commits(cfg, w.store, op);
    AppendedCounts(w.past.admitted, AdmittedBy(cfg, w.store, op));
  }

  /** The bound of LedgerSafety.BudgetHolds, with equality, at given values of its two terms. */
  ghost predicate AtBound(w: World, largest: int, overrun: int) {
    && w.store.run.Some?
    && LargestGuarded(w.past.admitted) == largest && Overrun(w.past.settled) == overrun
    && w.store.run.value.spend + w.store.run.value.inflight == w.store.run.value.budget + Max(0, largest - 1) + overrun
  }

  /** The world in which a call for g micros has been admitted by the guard of a run with budget 1. */
  ghost predicate Guarded(cfg: Settings, w: World, req: PrecallRequest) {
    var n, g := cfg.policies.loopRepeats, GuardPrice(cfg, req);
    && AtBound(w, g, 0) && g >= 1 && n >= 0
    && w.store.run.value.budget == 1 && w.store.run.value.spend == 0 && w.store.run.value.inflight == g
    && n in w.store.reservations && w.store.reservations[n].reserved == g && w.store.reservations[n].model == req.model
  }

  lemma {:induction false} RunIsGuarded(cfg: Settings, ops: seq<Op>, req: PrecallRequest, free: PrecallRequest)
    requires GuardCanAnswer(cfg) && req.step < cfg.policies.maxSteps && GuardPrice(cfg, req) >= 1
    requires free.call.promptHash == req.call.promptHash && WarmRun(cfg, ops, 1, free, cfg.policies.loopRepeats)
    ensures var ops' := ops + [Admit(req, Seen(cfg, ops))];
            Healthy(cfg, ops') && Guarded(cfg, Run(cfg, ops'), req)
  {
    GuardedAdmission(cfg, Run(cfg, ops), 1, req);
    HealthySnoc(cfg, ops, Admit(req, Seen(cfg, ops)));
  }

  lemma RunOverruns(cfg: Settings, ops: seq<Op>, req: PrecallRequest, body: PostcallRequest)
    requires Healthy(cfg, ops) && Guarded(cfg, Run(cfg, ops), req) && body.reservationId == cfg.policies.loopRepeats
    requires SettleCost(cfg, Reservation(0, req.model, 0), body) >= GuardPrice(cfg, req)
    ensures var g, cost := GuardPrice(cfg, req), SettleCost(cfg, Reservation(0, req.model, 0), body);
            Healthy(cfg, ops + [Charge(body)]) && AtBound(Run(cfg, ops + [Charge(body)]), g, cost - g)
  {
    HealthySnoc(cfg, ops, Charge(body));
    var g, cost := GuardPrice(cfg, req), SettleCost(cfg, Reservation(0, req.model, 0), body);
    SettledCounts(Run(cfg, ops).past.settled, Settled(cfg.policies.loopRepeats, g, cost));
  }

  /** The budget bound is reached, under any repeat limit the window can hold: by a priced call that
      the guard admits against a budget of 1, and again after that call is settled for more. */
  lemma {:induction false} BudgetBoundIsReached(cfg: Settings, free: PrecallRequest, dear: PrecallRequest, body: PostcallRequest)
    requires GuardCanAnswer(cfg) && IsFree(cfg, free)
    requires dear.step < cfg.policies.maxSteps && dear.call.promptHash == free.call.promptHash && GuardPrice(cfg, dear) >= 1
    requires body.reservationId == cfg.policies.loopRepeats
    requires SettleCost(cfg, Reservation(0, dear.model, 0), body) >= GuardPrice(cfg, dear)
    ensures var guarded := GuardedRun(cfg, 1, free, dear);
            var g, cost := GuardPrice(cfg, dear), SettleCost(cfg, Reservation(0, dear.model, 0), body);
            && Healthy(cfg, guarded) && AtBound(Run(cfg, guarded), g, 0)
            && Healthy(cfg, guarded + [Charge(body)]) && AtBound(Run(cfg, guarded + [Charge(body)]), g, cost - g)
  {
    WarmUpIsWarm(cfg, 1, free, cfg.policies.loopRepeats);
    RunIsGuarded(cfg, WarmUp(cfg, 1, free, cfg.policies.loopRepeats), dear, free);
    RunOverruns(cfg, GuardedRun(cfg, 1, free, dear), dear, body);
  }

  // ---- the steer, over whole runs ----

  /** The i-th admission is the first at or past the threshold. */
  ghost predicate FirstLate(admitted: seq<Admitted>, i: nat) {
    i < |admitted| && admitted[i].late && forall j :: 0 <= j < i ==> !admitted[j].late
  }

  /** The run counts as steered once an admission was late; the cheap model was named to the first
      such call, unless the guard admitted it, and to no other. */
  ghost predicate SteeredOnce(admitted: seq<Admitted>, steered: bool) {
    && (steered <==> exists i :: 0 <= i < |admitted| && admitted[i].late)
    && (forall i :: 0 <= i < |admitted| ==> (admitted[i].overridden <==> FirstLate(admitted, i) && !admitted[i].guarded))
  }

  lemma SteeredSnoc(admitted: seq<Admitted>, steered: bool, a: Admitted)
    requires SteeredOnce(admitted, steered) && (a.overridden <==> a.late && !steered && !a.guarded)
    ensures SteeredOnce(admitted + [a], steered || a.late)
  {
    var all := admitted + [a];
    forall i | 0 <= i < |all|
      ensures all[i].overridden <==> FirstLate(all, i) && !all[i].guarded
    {
      if i < |admitted| {
        FirstLateSnoc(admitted, a, i);
        assert all[i] == admitted[i];
      } else {
        assert FirstLate(all, i) <==> a.late && !steered by {
          assert forall j :: 0 <= j < |admitted| ==> all[j] == admitted[j];
        }
      }
    }
    assert (exists i :: 0 <= i < |all| && all[i].late) <==> steered || a.late by {
      assert all[|admitted|] == a && forall j :: 0 <= j < |admitted| ==> all[j] == admitted[j];
    }
  }

  lemma FirstLateSnoc(admitted: seq<Admitted>, a: Admitted, i: nat)
    requires i < |admitted|
    ensures FirstLate(admitted + [a], i) <==> FirstLate(admitted, i)
  {
    assert forall j :: 0 <= j < |admitted| ==> (admitted + [a])[j] == admitted[j];
  }

  lemma {:induction false} StepSteersOnce(cfg: Settings, w: World, op: Op)
    requires w.store.run.Some? ==> SteeredOnce(w.past.admitted, w.store.run.value.steered)
    requires w.store.run.None? ==> w.store.reservations == map[]
    ensures var w' := Step(cfg, w, op);
            w'.store.run.Some? ==> SteeredOnce(w'.past.admitted, w'.store.run.value.steered)
  {
    if Commits(cfg, w.store, op) {
      SteerIsUsedUpAtThreshold(cfg, w.store, op.req, op.seen);
      SteeredSnoc(w.past.admitted, w.store.run.value.steered, AdmittedBy(cfg, w.store, op));
    }
  }

  lemma {:induction false} RunsSteerOnce(cfg: Settings, ops: seq<Op>)
    requires Healthy(cfg, ops)
    ensures var w := Run(cfg, ops);
            w.store.run.Some? ==> SteeredOnce(w.past.admitted, w.store.run.value.steered)
    decreases |ops|
  {
    if ops != [] {
      RunsSteerOnce(cfg, ops[..|ops| - 1]);
      StepSteersOnce(cfg, Run(cfg, ops[..|ops| - 1]), ops[|ops| - 1]);
    }
  }

  lemma {:induction false} NoOverrides(admitted: seq<Admitted>)
    ensures Overrides(admitted) == 0 <==> forall i :: 0 <= i < |admitted| ==> !admitted[i].overridden
    decreases |admitted|
  {
    if admitted != [] {
      NoOverrides(admitted[..|admitted| - 1]);
    }
  }

  lemma {:induction false} SomeFirstLate(admitted: seq<Admitted>, i: nat) returns (k: nat)
    requires i < |admitted| && admitted[i].late
    ensures FirstLate(admitted, k)
    decreases i
  {
    if j :| 0 <= j < i && admitted[j].late {
      k := SomeFirstLate(admitted, j);
    } else {
      k := i;
    }
  }

  /** A run that counts as steered has sent no call to the cheap model if and only if the progress guard
      admitted the first call at or past the threshold. */
  lemma SteerIsLostExactly(cfg: Settings, ops: seq<Op>)
    requires Healthy(cfg, ops) && Run(cfg, ops).store.run.Some? && Run(cfg, ops).store.run.value.steered
    ensures var admitted := Run(cfg, ops).past.admitted;
            Overrides(admitted) == 0 <==> exists i: nat :: FirstLate(admitted, i) && admitted[i].guarded
  {
    RunsSteerOnce(cfg, ops);
    LostIffGuarded(Run(cfg, ops).past.admitted);
  }

  lemma LostIffGuarded(admitted: seq<Admitted>)
    requires SteeredOnce(admitted, true)
    ensures Overrides(admitted) == 0 <==> exists i: nat :: FirstLate(admitted, i) && admitted[i].guarded
  {
    NoOverrides(admitted);
    var i :| 0 <= i < |admitted| && admitted[i].late;
    var k := SomeFirstLate(admitted, i);
    forall j: nat | FirstLate(admitted, j)
      ensures j == k
    {
      assert !(j < k) && !(k < j);
    }
    assert Overrides(admitted) == 0 <==> !admitted[k].overridden;
  }

  // ---- a steer that is lost ----

  /** A prompt is repeated as often as the guard allows; the last of these calls turns out to cost
      `body`; the prompt is asked once more. */
  function LosingRun(cfg: Settings, budget: int, ask: PrecallRequest, body: PostcallRequest): seq<Op>
    requires cfg.policies.loopRepeats >= 1
  {
    var before := WarmUp(cfg, budget, ask, cfg.policies.loopRepeats - 1);
    var charged := before + [Admit(ask, Seen(cfg, before))] + [Charge(body)];
    charged + [Admit(ask, Seen(cfg, charged))]
  }

  /** The spend is past the threshold and the run counts as steered, and yet no call was or ever will
      be sent to the cheap model. */
  ghost predicate SteerLost(cfg: Settings, w: World) {
    && w.store.run.Some? && w.store.run.value.steered && Overrides(w.past.admitted) == 0
    && w.store.run.value.spend as real >= w.store.run.value.budget as real * cfg.policies.guardThreshold
    && NeverOverrides(cfg, w.store.run.value)
  }

  ghost predicate NeverOverrides(cfg: Settings, h: RunHash) {
    forall seen, req :: Verdict(cfg, h, seen, req).Returns? ==> Verdict(cfg, h, seen, req).decision.modelOverride.None?
  }

  /** The guard's answer to the last call of such a run uses up its steer. */
  lemma {:induction false} GuardLosesTheSteer(cfg: Settings, budget: int, ask: PrecallRequest, body: PostcallRequest)
    requires GuardCanAnswer(cfg) && IsFree(cfg, ask) && budget >= 1 && cfg.policies.guardThreshold > 0.0
    requires body.reservationId == cfg.policies.loopRepeats - 1
    requires var cost := SettleCost(cfg, Reservation(0, ask.model, 0), body);
             budget as real * cfg.policies.guardThreshold <= cost as real && cost < budget
    ensures SteerLost(cfg, Run(cfg, LosingRun(cfg, budget, ask, body)))
  {
    var n: nat := cfg.policies.loopRepeats - 1;
    var before := WarmUp(cfg, budget, ask, n);
    WarmUpIsWarm(cfg, budget, ask, n);
    RunAsks(cfg, before, budget, ask, n);
    RunComesToLoss(cfg, before + [Admit(ask, Seen(cfg, before))], budget, ask, body);
    RunLosesSteer(cfg, before + [Admit(ask, Seen(cfg, before))] + [Charge(body)], budget, ask);
  }

  lemma RunLosesSteer(cfg: Settings, ops: seq<Op>, budget: int, ask: PrecallRequest)
    requires GuardCanAnswer(cfg) && IsFree(cfg, ask) && AtLoss(cfg, Run(cfg, ops), budget, ask)
    ensures SteerLost(cfg, Run(cfg, ops + [Admit(ask, Seen(cfg, ops))]))
  {
    LastAsk(cfg, Run(cfg, ops), budget, ask);
    RunSnoc(cfg, ops, Admit(ask, Seen(cfg, ops)));
  }

  lemma LossIsForGood(cfg: Settings, w: World)
    requires w.store.run.Some? && w.store.run.value.steered && Overrides(w.past.admitted) == 0
    requires w.store.run.value.spend as real >= w.store.run.value.budget as real * cfg.policies.guardThreshold
    ensures SteerLost(cfg, w)
  {
    SteeredStays(cfg, w.store.run.value);
  }

  lemma SteeredStays(cfg: Settings, h: RunHash)
    requires h.steered
    ensures NeverOverrides(cfg, h)
  {
  }

  /** The state in which the guard will use up the steer. */
  ghost predicate AtLoss(cfg: Settings, w: World, budget: int, ask: PrecallRequest) {
    && w.store.run.Some?
    && var h := w.store.run.value;
       (&& h == RunHash(budget, h.spend, 0, false, "", h.steps, 0, false)
        && budget as real * cfg.policies.guardThreshold <= h.spend as real && h.spend < budget
        && h.steps < cfg.policies.maxSteps
        && w.store.prompts == Copies(ask.call.promptHash, Max(0, cfg.policies.loopRepeats))
        && Overrides(w.past.admitted) == 0)
  }

  lemma RunComesToLoss(cfg: Settings, ops: seq<Op>, budget: int, ask: PrecallRequest, body: PostcallRequest)
    requires GuardCanAnswer(cfg) && cfg.policies.guardThreshold > 0.0
    requires body.reservationId == cfg.policies.loopRepeats - 1
    requires var cost := SettleCost(cfg, Reservation(0, ask.model, 0), body);
             budget as real * cfg.policies.guardThreshold <= cost as real && cost < budget
    requires AskedRun(cfg, ops, budget, ask, cfg.policies.loopRepeats - 1)
    ensures AtLoss(cfg, Run(cfg, ops + [Charge(body)]), budget, ask)
  {
    SettlingAsked(cfg, Run(cfg, ops), budget, ask, cfg.policies.loopRepeats - 1, body);
    RunSnoc(cfg, ops, Charge(body));
    SettledIsAtLoss(cfg, Run(cfg, ops), Run(cfg, ops + [Charge(body)]), budget, ask,
                    SettleCost(cfg, Reservation(0, ask.model, 0), body));
  }

  lemma {:induction false} LastAsk(cfg: Settings, w: World, budget: int, ask: PrecallRequest)
    requires GuardCanAnswer(cfg) && IsFree(cfg, ask) && AtLoss(cfg, w, budget, ask)
    ensures SteerLost(cfg, Step(cfg, w, Admit(ask, LRange(w.store.prompts, cfg.policies.loopWindow - 1))))
  {
    var op := Admit(ask, LRange(w.store.prompts, cfg.policies.loopWindow - 1));
    LastAskSteers(cfg, w, budget, ask);
    LossIsForGood(cfg, Step(cfg, w, op));
  }

  lemma {:induction false} LastAskSteers(cfg: Settings, w: World, budget: int, ask: PrecallRequest)
    requires GuardCanAnswer(cfg) && IsFree(cfg, ask) && AtLoss(cfg, w, budget, ask)
    ensures var w' := Step(cfg, w, Admit(ask, LRange(w.store.prompts, cfg.policies.loopWindow - 1)));
            && w'.store.run.Some? && w'.store.run.value.budget == budget && w'.store.run.value.spend == w.store.run.value.spend
            && w'.store.run.value.steered && Overrides(w'.past.admitted) == 0
  {
    var op := Admit(ask, LRange(w.store.prompts, cfg.policies.loopWindow - 1));
    GuardedIsAdmitted(cfg, w.store.run.value, ask);
    SteerIsUsedUpAtThreshold(cfg, w.store, ask, op.seen);
    AppendedCounts(w.past.admitted, AdmittedBy(cfg, w.store, op));
  }

  /** The guard's answer to a prompt repeated often enough, when nothing is reserved and some budget left. */
  lemma {:induction false} GuardedIsAdmitted(cfg: Settings, h: RunHash, ask: PrecallRequest)
    requires GuardCanAnswer(cfg) && ask.step < cfg.policies.maxSteps && h.steps < cfg.policies.maxSteps
    requires !h.halt && h.spend + h.inflight < h.budget
    ensures var seen := Copies(ask.call.promptHash, cfg.policies.loopRepeats);
            && LRange(seen, cfg.policies.loopWindow - 1) == seen
            && Repeating(MapRun(h, seen, ask.step), ask.call, cfg.policies)
            && Verdict(cfg, h, seen, ask).Admits() && Verdict(cfg, h, seen, ask).decision.modelOverride.None?
            && Verdict(cfg, h, seen, ask).decision.reserve == GuardPrice(cfg, ask)
  {
    GuardOnCopies(cfg, h, ask, cfg.policies.loopRepeats);
  }
}
