/** What Redis keeps for one run, and the atomic effects the run-ledger service has on it:
    create_run, the MULTI/EXEC of precall, the settlement of postcall, the halt flag, and key
    expiry. Each effect is a function from store to store. */
module RunLedger {
  import opened Numbers
  import opened AdmissionRule

  datatype Settings = Settings(runTtl: int, reservationTtl: int, policies: Policies, prices: map<string, Prices>)

  /** The run hash; a field missing from Redis reads as 0, false or "". */
  datatype RunHash = RunHash(
    budget: int, spend: int, inflight: int, halt: bool, haltReason: string,
    steps: int, concurrent: int, steered: bool)

  const BLANK := RunHash(0, 0, 0, false, "", 0, 0, false)

  datatype Reservation = Reservation(reserved: int, model: string, expiry: int)

  /** `version` counts the writes to the run key that WATCH notices (its expiry included);
      `promptEpoch` counts the expiries of the prompt list, which nothing watches. */
  datatype Store = Store(
    run: Option<RunHash>, runExpiry: int, version: nat,
    prompts: seq<string>, promptExpiry: int, promptEpoch: nat,
    reservations: map<nat, Reservation>, nextId: nat, now: int)

  const EMPTY_STORE := Store(None, 0, 0, [], 0, 0, map[], 0, 0)

  datatype PrecallRequest = PrecallRequest(model: string, step: nat, call: Call)

  /** `model` is "" when the caller leaves the reservation's model in force. */
  datatype PostcallRequest = PostcallRequest(
    reservationId: nat, inputTokens: nat, outputTokens: nat, model: string, failed: bool)

  function PricesFor(cfg: Settings, model: string): Prices {
    if model in cfg.prices then cfg.prices[model] else Prices(0.0, 0.0)
  }

  /** Redis LRANGE 0 stop (and what LTRIM 0 stop keeps); a negative stop counts from the end. */
  function LRange<T>(s: seq<T>, stop: int): seq<T> {
    var last := if stop < 0 then stop + |s| else stop;
    if last < 0 then [] else s[..Min(last + 1, |s|)]
  }

  function MapRun(h: RunHash, prompts: seq<string>, step: nat): RunState {
    RunState(h.budget, h.spend, h.inflight, if h.halt then Some(h.haltReason) else None,
             Max(h.steps, step), h.concurrent, h.steered, prompts)
  }

  /** The decision precall computes from the hash and the prompt list it has read. */
  function Verdict(cfg: Settings, h: RunHash, prompts: seq<string>, req: PrecallRequest): Outcome {
    Decide(MapRun(h, prompts, req.step), PricesFor(cfg, req.model), req.call, cfg.policies)
  }

  function CreateRun(s: Store, budget: int, ttl: int): Store {
    var run := if s.run.Some? then s.run else Some(BLANK.(budget := budget));
    s.(run := run, runExpiry := s.now + ttl, version := s.version + 1)
  }

  /** The MULTI/EXEC of an admitted precall. */
  function Reserve(cfg: Settings, s: Store, req: PrecallRequest, d: Decision): Store
    requires s.run.Some?
  {
    var h := s.run.value;
    var steers := !h.steered && h.spend as real >= h.budget as real * cfg.policies.guardThreshold
                  && (d.modelOverride.Some? || d.inject.Some?);
    var h' := h.(inflight := h.inflight + d.reserve, concurrent := h.concurrent + 1,
                 steps := Max(h.steps, req.step), steered := h.steered || steers);
    Store(Some(h'), s.now + cfg.runTtl, s.version + 1,
          LRange([req.call.promptHash] + s.prompts, cfg.policies.loopWindow - 1),
          s.now + cfg.runTtl, s.promptEpoch,
          s.reservations[s.nextId := Reservation(d.reserve, req.model, s.now + cfg.reservationTtl)],
          s.nextId + 1, s.now)
  }

  /** What a settlement charges, in micros. */
  function SettleCost(cfg: Settings, held: Reservation, body: PostcallRequest): int {
    var p := PricesFor(cfg, if body.model != "" then body.model else held.model);
    if body.failed then 0 else WorstCase(p, body.inputTokens, body.outputTokens)
  }

  /** The transaction of postcall; without its reservation postcall does nothing. */
  function Settle(cfg: Settings, s: Store, body: PostcallRequest): Store {
    if body.reservationId !in s.reservations then s
    else
      var held := s.reservations[body.reservationId];
      var h := if s.run.Some? then s.run.value else BLANK;
      var h' := h.(inflight := h.inflight - held.reserved, concurrent := h.concurrent - 1,
                   spend := h.spend + SettleCost(cfg, held, body));
      s.(run := Some(h'), runExpiry := s.now + cfg.runTtl, version := s.version + 1,
         reservations := s.reservations - {body.reservationId})
  }

  /** The last write of postcall, made only when the spend it has read reaches the budget. */
  function FlagHalt(s: Store): Store {
    if s.run.Some? && s.run.value.spend >= s.run.value.budget then
      s.(run := Some(s.run.value.(halt := true, haltReason := "cost_budget")), version := s.version + 1)
    else s
  }

  /** postcall run without interruption. */
  function PostCall(cfg: Settings, s: Store, body: PostcallRequest): Store {
    if body.reservationId in s.reservations then FlagHalt(Settle(cfg, s, body)) else s
  }

  /** Time passes and Redis drops the keys whose time has come. */
  function Elapse(s: Store, dt: nat): Store {
    var now := s.now + dt;
    var runGone := s.run.Some? && s.runExpiry <= now;
    var promptsGone := s.prompts != [] && s.promptExpiry <= now;
    Store(if runGone then None else s.run, s.runExpiry, if runGone then s.version + 1 else s.version,
          if promptsGone then [] else s.prompts, s.promptExpiry,
          if promptsGone then s.promptEpoch + 1 else s.promptEpoch,
          map id | id in s.reservations && now < s.reservations[id].expiry :: s.reservations[id],
          s.nextId, now)
  }

  /** One atomic effect. `Admit` decides on the current hash and on a prompt list the client has
      seen, which need not be the current one. */
  datatype Op =
    | Create(budget: int, ttl: int)
    | Admit(req: PrecallRequest, seen: seq<string>)
    | Charge(body: PostcallRequest)
    | Flag
    | Tick(dt: nat)

  predicate Commits(cfg: Settings, s: Store, op: Op) {
    op.Admit? && s.run.Some? && Verdict(cfg, s.run.value, op.seen, op.req).Admits()
  }

  function Apply(cfg: Settings, s: Store, op: Op): Store {
    match op
    case Create(budget, ttl) => CreateRun(s, budget, ttl)
    case Admit(req, seen) =>
      if Commits(cfg, s, op) then Reserve(cfg, s, req, Verdict(cfg, s.run.value, seen, req).decision) else s
    case Charge(body) => Settle(cfg, s, body)
    case Flag => FlagHalt(s)
    case Tick(dt) => Elapse(s, dt)
  }

  function ApplyAll(cfg: Settings, s: Store, ops: seq<Op>): Store
    decreases ops
  {
    if ops == [] then s else ApplyAll(cfg, Apply(cfg, s, ops[0]), ops[1..])
  }

  lemma {:induction false} ApplyAllConcat(cfg: Settings, s: Store, a: seq<Op>, b: seq<Op>)
    ensures ApplyAll(cfg, s, a + b) == ApplyAll(cfg, ApplyAll(cfg, s, a), b)
    decreases a
  {
    if a == [] {
      assert a + b == b;
    } else {
      assert (a + b)[1..] == a[1..] + b;
      ApplyAllConcat(cfg, Apply(cfg, s, a[0]), a[1..], b);
    }
  }

  /** A postcall repeated after it has finished finds no reservation and changes nothing. */
  lemma PostCallTwiceIsOnce(cfg: Settings, s: Store, body: PostcallRequest)
    ensures PostCall(cfg, PostCall(cfg, s, body), body) == PostCall(cfg, s, body)
  {
  }

  /** A postcall that finds its reservation removes it and no other, gives its amount and its place
      back, charges the call, and leaves the run flagged exactly if it is now spent out or was
      flagged before. */
  lemma {:induction false} PostCallSettles(cfg: Settings, s: Store, body: PostcallRequest)
    requires body.reservationId in s.reservations && s.run.Some?
    ensures var s', h := PostCall(cfg, s, body), s.run.value;
            && s'.run.Some? && s'.version > s.version
            && s'.reservations == (map id | id in s.reservations && id != body.reservationId :: s.reservations[id])
            && s'.run.value.inflight + s.reservations[body.reservationId].reserved == h.inflight
            && s'.run.value.concurrent + 1 == h.concurrent
            && s'.run.value.spend == h.spend + SettleCost(cfg, s.reservations[body.reservationId], body)
            && (s'.run.value.halt <==> h.halt || s'.run.value.spend >= h.budget)
            && (s'.run.value.spend >= h.budget ==> s'.run.value.haltReason == "cost_budget")
            && s'.prompts == s.prompts && s'.run.value.steps == h.steps && s'.run.value.steered == h.steered
  {
    assert s.reservations - {body.reservationId}
        == (map id | id in s.reservations && id != body.reservationId :: s.reservations[id]);
  }

  /** The one-time steer is used up by the first admission at or past the threshold, whoever admits
      it: the call is sent to the cheap model only if the progress guard did not answer first. */
  lemma {:induction false} SteerIsUsedUpAtThreshold(cfg: Settings, s: Store, req: PrecallRequest, seen: seq<string>)
    requires Commits(cfg, s, Admit(req, seen))
    ensures var h, h' := s.run.value, Apply(cfg, s, Admit(req, seen)).run.value;
            var state := MapRun(h, seen, req.step);
            && (h'.steered <==> h.steered || AtThreshold(state, cfg.policies))
            && (Verdict(cfg, h, seen, req).decision.modelOverride.Some? <==>
                !h.steered && h'.steered && !Repeating(state, req.call, cfg.policies))
            && h'.steps == (if h.steps >= req.step then h.steps else req.step)
  {
  }
}
