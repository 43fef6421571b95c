/** precall as its clients run it: watch the run key, read the hash, read the prompt list, then
    either answer with a rejection or EXEC, starting over when the watched key has changed. Any
    number of clients interleave with each other and with the service's other effects. */
module PrecallProtocol {
  import opened Numbers
  import opened AdmissionRule
  import opened RunLedger
  import opened LedgerSafety

  datatype Phase =
    | Idle
    | Watching(req: PrecallRequest, version: nat)
    | HasHash(req: PrecallRequest, version: nat, hash: RunHash)
    | Ready(req: PrecallRequest, version: nat, hash: RunHash, epoch: nat, prompts: seq<string>)

  datatype System = System(store: Store, clients: map<nat, Phase>)

  const QUIET := System(EMPTY_STORE, map[])

  datatype Move =
    | Begin(client: nat, req: PrecallRequest)
    | ReadHash(client: nat)
    | ReadPrompts(client: nat)
    | Finish(client: nat)
    | Other(op: Op)

  function PhaseOf(sys: System, client: nat): Phase {
    if client in sys.clients then sys.clients[client] else Idle
  }

  /** The client's EXEC goes through: it decided to admit and the run key is as it was watched. */
  predicate ExecCommits(cfg: Settings, sys: System, client: nat) {
    var p := PhaseOf(sys, client);
    p.Ready? && Verdict(cfg, p.hash, p.prompts, p.req).Admits() && p.version == sys.store.version
  }

  function Next(cfg: Settings, sys: System, m: Move): System {
    match m
    case Begin(c, req) =>
      if PhaseOf(sys, c).Idle? then sys.(clients := sys.clients[c := Watching(req, sys.store.version)]) else sys
    case ReadHash(c) =>
      var p := PhaseOf(sys, c);
      if !p.Watching? then sys
      else if sys.store.run.None? then sys.(clients := sys.clients[c := Idle])
      else sys.(clients := sys.clients[c := HasHash(p.req, p.version, sys.store.run.value)])
    case ReadPrompts(c) =>
      var p := PhaseOf(sys, c);
      if !p.HasHash? then sys
      else
        var seen := LRange(sys.store.prompts, cfg.policies.loopWindow - 1);
        sys.(clients := sys.clients[c := Ready(p.req, p.version, p.hash, sys.store.promptEpoch, seen)])
    case Finish(c) =>
      var p := PhaseOf(sys, c);
      if !p.Ready? then sys
      else
        var verdict := Verdict(cfg, p.hash, p.prompts, p.req);
        if !verdict.Admits() then sys.(clients := sys.clients[c := Idle])
        else if p.version != sys.store.version then
          sys.(clients := sys.clients[c := Watching(p.req, sys.store.version)])
        else
          var store := if sys.store.run.Some? then Reserve(cfg, sys.store, p.req, verdict.decision) else sys.store;
          System(store, sys.clients[c := Idle])
    case Other(op) =>
      if op.Admit? then sys else sys.(store := Apply(cfg, sys.store, op))
  }

  function RunSystem(cfg: Settings, moves: seq<Move>): System {
    if moves == [] then QUIET else Next(cfg, RunSystem(cfg, moves[..|moves| - 1]), moves[|moves| - 1])
  }

  /** The atomic effect a move has on the store, if any. */
  function Effect(cfg: Settings, sys: System, m: Move): seq<Op> {
    match m
    case Finish(c) => if ExecCommits(cfg, sys, c) then [Admit(PhaseOf(sys, c).req, PhaseOf(sys, c).prompts)] else []
    case Other(op) => if op.Admit? then [] else [op]
    case _ => []
  }

  function Effects(cfg: Settings, moves: seq<Move>): seq<Op> {
    if moves == [] then []
    else Effects(cfg, moves[..|moves| - 1]) + Effect(cfg, RunSystem(cfg, moves[..|moves| - 1]), moves[|moves| - 1])
  }

  /** What a client has read is what the store holds, as long as the watched version stands; so is
      the unwatched prompt list, unless it has expired, and then there is no list any more. */
  ghost predicate ReadsAreCurrent(cfg: Settings, s: Store, p: Phase) {
    match p
    case Idle => true
    case Watching(_, v) => v <= s.version
    case HasHash(_, v, h) => v <= s.version && (v == s.version ==> s.run == Some(h))
    case Ready(_, v, h, e, prompts) =>
      && v <= s.version
      && (v == s.version ==> s.run == Some(h))
      && (v == s.version && e == s.promptEpoch ==> prompts == LRange(s.prompts, cfg.policies.loopWindow - 1))
      && (v == s.version && e != s.promptEpoch ==> s.prompts == [])
      && e <= s.promptEpoch
  }

  ghost predicate AllCurrent(cfg: Settings, sys: System) {
    forall c :: c in sys.clients ==> ReadsAreCurrent(cfg, sys.store, sys.clients[c])
  }

  /** Every write to the run hash or the prompt list moves the version on, expiry of the list
      excepted, which leaves no list; this is why watching the run key alone is enough. */
  lemma EffectsMoveTheVersion(cfg: Settings, s: Store, op: Op)
    ensures var s' := Apply(cfg, s, op);
            && s.version <= s'.version && s.promptEpoch <= s'.promptEpoch
            && (s.version == s'.version ==> s'.run == s.run)
            && (s.version == s'.version ==> s'.prompts == if s.promptEpoch == s'.promptEpoch then s.prompts else [])
  {
  }

  /** A client's own move leaves its reads current, on the store its move leaves. */
  lemma {:induction false} MovedReadsAreCurrent(cfg: Settings, sys: System, m: Move, c: nat)
    requires AllCurrent(cfg, sys) && c in Next(cfg, sys, m).clients
    requires c !in sys.clients || Next(cfg, sys, m).clients[c] != sys.clients[c]
    ensures ReadsAreCurrent(cfg, Next(cfg, sys, m).store, Next(cfg, sys, m).clients[c])
  {
    assert c in sys.clients ==> ReadsAreCurrent(cfg, sys.store, sys.clients[c]);
  }

  lemma {:induction false} NextIsEffect(cfg: Settings, sys: System, m: Move)
    requires AllCurrent(cfg, sys)
    ensures Next(cfg, sys, m).store == ApplyAll(cfg, sys.store, Effect(cfg, sys, m))
    ensures sys.store.version <= Next(cfg, sys, m).store.version
  {
    var ops := Effect(cfg, sys, m);
    if m.Finish? && m.client in sys.clients {
      assert ReadsAreCurrent(cfg, sys.store, sys.clients[m.client]);
    }
    if ops != [] {
      assert ops[1..] == [];
      assert ApplyAll(cfg, sys.store, ops) == Apply(cfg, sys.store, ops[0]);
      EffectsMoveTheVersion(cfg, sys.store, ops[0]);
    }
  }

  lemma NextMovesTheVersion(cfg: Settings, sys: System, m: Move)
    requires AllCurrent(cfg, sys)
    ensures var s, s' := sys.store, Next(cfg, sys, m).store;
            && s.version <= s'.version && s.promptEpoch <= s'.promptEpoch
            && (s.version == s'.version ==> s'.run == s.run)
            && (s.version == s'.version ==> s'.prompts == if s.promptEpoch == s'.promptEpoch then s.prompts else [])
  {
    NextIsEffect(cfg, sys, m);
    var ops := Effect(cfg, sys, m);
    if ops != [] {
      assert ops[1..] == [];
      EffectsMoveTheVersion(cfg, sys.store, ops[0]);
    }
  }

  lemma NextKeepsReadsCurrent(cfg: Settings, sys: System, m: Move)
    requires AllCurrent(cfg, sys)
    ensures AllCurrent(cfg, Next(cfg, sys, m))
  {
    var sys' := Next(cfg, sys, m);
    NextMovesTheVersion(cfg, sys, m);
    forall c | c in sys'.clients
      ensures ReadsAreCurrent(cfg, sys'.store, sys'.clients[c])
    {
      if c !in sys.clients || sys'.clients[c] != sys.clients[c] {
        MovedReadsAreCurrent(cfg, sys, m, c);
      }
    }
  }

  lemma {:induction false} ReachableReadsAreCurrent(cfg: Settings, moves: seq<Move>)
    ensures AllCurrent(cfg, RunSystem(cfg, moves))
    decreases |moves|
  {
    if moves != [] {
      ReachableReadsAreCurrent(cfg, moves[..|moves| - 1]);
      NextKeepsReadsCurrent(cfg, RunSystem(cfg, moves[..|moves| - 1]), moves[|moves| - 1]);
    }
  }

  lemma {:induction false} RunStore(cfg: Settings, ops: seq<Op>)
    ensures Run(cfg, ops).store == ApplyAll(cfg, EMPTY_STORE, ops)
    decreases |ops|
  {
    if ops != [] {
      var init, last := ops[..|ops| - 1], ops[|ops| - 1];
      RunStore(cfg, init);
      ApplyAllConcat(cfg, EMPTY_STORE, init, [last]);
      assert init + [last] == ops;
      assert [last][1..] == [];
      assert ApplyAll(cfg, Run(cfg, init).store, [last]) == Apply(cfg, Run(cfg, init).store, last);
    }
  }

  /** Refinement: whatever the interleaving, the store is the one left by a sequence of atomic
      effects, in which each EXEC counts as one admission at the moment it commits. All results
      about atomic runs therefore hold of interleaved ones. */
  lemma {:induction false} InterleavingsAreAtomicRuns(cfg: Settings, moves: seq<Move>)
    ensures RunSystem(cfg, moves).store == Run(cfg, Effects(cfg, moves)).store
    decreases |moves|
  {
    if moves != [] {
      var init, m := moves[..|moves| - 1], moves[|moves| - 1];
      InterleavingsAreAtomicRuns(cfg, init);
      ReachableReadsAreCurrent(cfg, init);
      NextIsEffect(cfg, RunSystem(cfg, init), m);
      var ops := Effect(cfg, RunSystem(cfg, init), m);
      RunStore(cfg, Effects(cfg, init));
      RunStore(cfg, Effects(cfg, moves));
      ApplyAllConcat(cfg, EMPTY_STORE, Effects(cfg, init), ops);
    }
  }

  /** Budget safety of interleaved runs: any number of clients between any of whose reads and writes
      anything may happen keep the ledger within the same bound as atomic ones. */
  lemma {:induction false} InterleavedBudgetHolds(cfg: Settings, moves: seq<Move>)
    requires ValidSettings(cfg) && TtlsOrdered(cfg, Effects(cfg, moves)) && RunSystem(cfg, moves).store.run.Some?
    ensures var h, past := RunSystem(cfg, moves).store.run.value, Run(cfg, Effects(cfg, moves)).past;
            && h.spend + h.inflight <= h.budget + Max(0, LargestGuarded(past.admitted) - 1) + Overrun(past.settled)
            && h.inflight == Open(past.admitted, past.done, Amount)
            && h.concurrent == Open(past.admitted, past.done, One)
            && h.spend == Charged(past.settled)
  {
    InterleavingsAreAtomicRuns(cfg, moves);
    OrderedTtlsKeepRunsHealthy(cfg, Effects(cfg, moves));
    BudgetHolds(cfg, Effects(cfg, moves));
    CountersAreSums(cfg, Effects(cfg, moves));
  }

  /** Linearizability: an EXEC that commits was decided on the run hash as it stands, and, unless
      the prompt list expired meanwhile, its decision is the one the rule gives on the state just
      before EXEC; the new store is the effect of that decision. */
  lemma {:induction false} CommittedPrecallIsLinearizable(cfg: Settings, moves: seq<Move>, client: nat)
    requires ExecCommits(cfg, RunSystem(cfg, moves), client)
    ensures var sys := RunSystem(cfg, moves);
            var p, s := PhaseOf(sys, client), sys.store;
            && s.run == Some(p.hash)
            && (p.epoch == s.promptEpoch ==>
                  && Verdict(cfg, p.hash, p.prompts, p.req)
                     == Verdict(cfg, s.run.value, LRange(s.prompts, cfg.policies.loopWindow - 1), p.req)
                  && Next(cfg, sys, Finish(client)).store
                     == Reserve(cfg, s, p.req, Verdict(cfg, s.run.value, LRange(s.prompts, cfg.policies.loopWindow - 1), p.req).decision))
  {
    ReachableReadsAreCurrent(cfg, moves);
    var sys := RunSystem(cfg, moves);
    assert ReadsAreCurrent(cfg, sys.store, sys.clients[client]);
  }

  /** The decision of an EXEC that commits is the one the rule gives on the state just before it if and
      only if the prompt list has not expired since it was read, or the progress guard did not make
      the decision (or answers to every call, its repeat limit not being positive). */
  lemma {:induction false} CommittedDecisionIsCurrentExactly(cfg: Settings, moves: seq<Move>, client: nat)
    requires ExecCommits(cfg, RunSystem(cfg, moves), client)
    ensures var sys := RunSystem(cfg, moves);
            var p, s := PhaseOf(sys, client), sys.store;
            && s.run == Some(p.hash)
            && (Verdict(cfg, p.hash, p.prompts, p.req)
                == Verdict(cfg, s.run.value, LRange(s.prompts, cfg.policies.loopWindow - 1), p.req) <==>
                || p.epoch == s.promptEpoch
                || !Repeating(MapRun(p.hash, p.prompts, p.req.step), p.req.call, cfg.policies)
                || cfg.policies.loopRepeats <= 0)
  {
    ReachableReadsAreCurrent(cfg, moves);
    var sys := RunSystem(cfg, moves);
    var p, s := PhaseOf(sys, client), sys.store;
    assert ReadsAreCurrent(cfg, s, sys.clients[client]);
    if p.epoch != s.promptEpoch {
      assert LRange(s.prompts, cfg.policies.loopWindow - 1) == LastOf<string>([], cfg.policies.loopWindow) == [];
      PromptsMatterOnlyToTheGuard(MapRun(p.hash, p.prompts, p.req.step), PricesFor(cfg, p.req.model), p.req.call, cfg.policies, []);
    }
  }

  // ---- progress ----

  /** A client that is left alone gets its answer in three moves: the store is the one the atomic
      admission would leave, on the list it has read, which is the current one. */
  lemma {:induction false} AloneClientsAreAnswered(cfg: Settings, sys: System, client: nat, req: PrecallRequest)
    requires PhaseOf(sys, client) == Watching(req, sys.store.version) && sys.store.run.Some?
    ensures var sys1 := Next(cfg, sys, ReadHash(client));
            var sys2 := Next(cfg, sys1, ReadPrompts(client));
            var sys3 := Next(cfg, sys2, Finish(client));
            && PhaseOf(sys3, client).Idle?
            && sys3.store == Apply(cfg, sys.store, Admit(req, LRange(sys.store.prompts, cfg.policies.loopWindow - 1)))
            && forall c :: c != client ==> PhaseOf(sys3, c) == PhaseOf(sys, c)
  {
  }

  /** A client that finds no run is told so at once. */
  lemma {:induction false} MissingRunsEndTheCall(cfg: Settings, sys: System, client: nat)
    requires PhaseOf(sys, client).Watching? && sys.store.run.None?
    ensures PhaseOf(Next(cfg, sys, ReadHash(client)), client).Idle? && Next(cfg, sys, ReadHash(client)).store == sys.store
  {
  }

  /** A client whose watched key has moved starts over with the same request, and nothing is written. */
  lemma {:induction false} ConflictsStartOver(cfg: Settings, sys: System, client: nat)
    requires var p := PhaseOf(sys, client);
             p.Ready? && p.version != sys.store.version && Verdict(cfg, p.hash, p.prompts, p.req).Admits()
    ensures var sys' := Next(cfg, sys, Finish(client));
            sys'.store == sys.store && PhaseOf(sys', client) == Watching(PhaseOf(sys, client).req, sys.store.version)
  {
  }

  const TIGHT := Settings(10, 5, Policies(20, 4, 0.8, 1, "mini", 6, 1), map[])
  const ASK := PrecallRequest("model", 0, Call(0, Some(1), "h"))

  lemma {:induction false} RunSystemSnoc(cfg: Settings, moves: seq<Move>, m: Move)
    ensures RunSystem(cfg, moves + [m]) == Next(cfg, RunSystem(cfg, moves), m)
  {
    assert (moves + [m])[..|moves|] == moves;
  }

  function Reads(moves: seq<Move>): seq<Move> { moves + [Begin(0, ASK)] + [ReadHash(0)] + [ReadPrompts(0)] }

  /** A run is created and one precall goes through undisturbed. */
  function OneCommit(): seq<Move> { Reads([] + [Other(Create(5, 10))]) + [Finish(0)] }

  /** The run hash is given more time, and a second precall reads the prompt list before it expires. */
  function ReadsBeforeExpiry(): seq<Move> { Reads(OneCommit() + [Other(Create(5, 20))]) }

  function Expiring(): seq<Move> { ReadsBeforeExpiry() + [Other(Tick(10))] }

  /** An uninterrupted precall by an idle client, up to the point where it is ready to finish. */
  lemma {:induction false} ReadyAfterReads(moves: seq<Move>)
    requires PhaseOf(RunSystem(TIGHT, moves), 0).Idle? && RunSystem(TIGHT, moves).store.run.Some?
    ensures var s := RunSystem(TIGHT, moves).store;
            var sys := RunSystem(TIGHT, Reads(moves));
            && sys.store == s
            && PhaseOf(sys, 0) == Ready(ASK, s.version, s.run.value, s.promptEpoch, LRange(s.prompts, 5))
  {
    RunSystemSnoc(TIGHT, moves, Begin(0, ASK));
    RunSystemSnoc(TIGHT, moves + [Begin(0, ASK)], ReadHash(0));
    RunSystemSnoc(TIGHT, moves + [Begin(0, ASK)] + [ReadHash(0)], ReadPrompts(0));
  }

  /** The client is about to EXEC an answer of the guard to a prompt list that no longer exists. */
  ghost predicate AnswersForNothing(sys: System) {
    var p := PhaseOf(sys, 0);
    && ExecCommits(TIGHT, sys, 0) && sys.store.prompts == []
    && Verdict(TIGHT, p.hash, p.prompts, ASK) != Verdict(TIGHT, p.hash, sys.store.prompts, ASK)
  }

  /** The exception is real: the prompt list is kept alive only by admissions, the run hash also by
      create_run and postcall, so the list can expire between LRANGE and EXEC. A precall then
      commits the progress guard's answer although the list it answers to no longer exists. */
  lemma {:induction false} ExpiredPromptsCanDecide()
    ensures AnswersForNothing(RunSystem(TIGHT, Expiring()))
  {
    CommitsThenReads();
    RunSystemSnoc(TIGHT, ReadsBeforeExpiry(), Other(Tick(10)));
    GuardAnswersForNothing(RunSystem(TIGHT, Expiring()));
  }

  lemma {:induction false} GuardAnswersForNothing(sys: System)
    requires var p := PhaseOf(sys, 0);
             p.Ready? && p.req == ASK && p.hash == BLANK.(budget := 5, concurrent := 1) && p.prompts == ["h"]
    requires PhaseOf(sys, 0).version == sys.store.version && sys.store.prompts == []
    ensures AnswersForNothing(sys)
  {
    FreeVerdict(PhaseOf(sys, 0).hash, ["h"]);
    FreeVerdict(PhaseOf(sys, 0).hash, []);
  }

  lemma {:induction false} CommitsThenReads()
    ensures var sys := RunSystem(TIGHT, ReadsBeforeExpiry());
            var h := BLANK.(budget := 5, concurrent := 1);
            && sys.store.run == Some(h) && sys.store.runExpiry == 20 && sys.store.now == 0
            && sys.store.prompts == ["h"] && sys.store.promptExpiry == 10
            && PhaseOf(sys, 0) == Ready(ASK, sys.store.version, h, sys.store.promptEpoch, ["h"])
  {
    CommitsOnce();
    RunSystemSnoc(TIGHT, OneCommit(), Other(Create(5, 20)));
    ReadyAfterReads(OneCommit() + [Other(Create(5, 20))]);
    assert LRange(["h"], 5) == ["h"];
  }

  lemma {:induction false} CommitsOnce()
    ensures var sys := RunSystem(TIGHT, OneCommit());
            && sys.store.run == Some(BLANK.(budget := 5, concurrent := 1))
            && sys.store.prompts == ["h"] && sys.store.promptExpiry == 10 && sys.store.now == 0
            && PhaseOf(sys, 0).Idle?
  {
    FirstReads();
    RunSystemSnoc(TIGHT, Reads([] + [Other(Create(5, 10))]), Finish(0));
    FirstFinishes(RunSystem(TIGHT, Reads([] + [Other(Create(5, 10))])));
  }

  lemma {:induction false} FirstReads()
    ensures var sys := RunSystem(TIGHT, Reads([] + [Other(Create(5, 10))]));
            && sys.store == CreateRun(EMPTY_STORE, 5, 10)
            && PhaseOf(sys, 0) == Ready(ASK, 1, BLANK.(budget := 5), 0, [])
  {
    RunSystemSnoc(TIGHT, [], Other(Create(5, 10)));
    ReadyAfterReads([] + [Other(Create(5, 10))]);
  }

  lemma {:induction false} FirstFinishes(sys: System)
    requires sys.store == CreateRun(EMPTY_STORE, 5, 10) && PhaseOf(sys, 0) == Ready(ASK, 1, BLANK.(budget := 5), 0, [])
    ensures var sys' := Next(TIGHT, sys, Finish(0));
            && sys'.store.run == Some(BLANK.(budget := 5, concurrent := 1))
            && sys'.store.prompts == ["h"] && sys'.store.promptExpiry == 10 && sys'.store.now == 0
            && PhaseOf(sys', 0).Idle?
  {
    FreeVerdict(BLANK.(budget := 5), []);
    var d := Verdict(TIGHT, BLANK.(budget := 5), [], ASK).decision;
    ExecReserves(TIGHT, sys, 0);
    FirstReserves(sys.store, d);
  }

  lemma {:induction false} ExecReserves(cfg: Settings, sys: System, client: nat)
    requires ExecCommits(cfg, sys, client) && sys.store.run.Some?
    ensures var p := PhaseOf(sys, client);
            Next(cfg, sys, Finish(client))
            == System(Reserve(cfg, sys.store, p.req, Verdict(cfg, p.hash, p.prompts, p.req).decision), sys.clients[client := Idle])
  {
  }

  lemma {:induction false} FirstReserves(s: Store, d: Decision)
    requires s == CreateRun(EMPTY_STORE, 5, 10) && d.reserve == 0 && d.modelOverride == None && d.inject == None
    ensures var s' := Reserve(TIGHT, s, ASK, d);
            && s'.run == Some(BLANK.(budget := 5, concurrent := 1))
            && s'.prompts == ["h"] && s'.promptExpiry == 10 && s'.now == 0
  {
    assert LRange(["h"] + [], 5) == ["h"];
  }

  /** With no price and budget 5, the call is admitted: by the guard after a repeat, else as asked. */
  lemma {:induction false} FreeVerdict(h: RunHash, prompts: seq<string>)
    requires h.budget == 5 && h.spend == h.inflight == 0 && !h.halt && h.steps == 0 && 0 <= h.concurrent <= 1
    requires prompts == [] || prompts == ["h"]
    ensures Verdict(TIGHT, h, prompts, ASK).Admits() && Verdict(TIGHT, h, prompts, ASK).decision.reserve == 0
    ensures Verdict(TIGHT, h, prompts, ASK).decision.inject == (if prompts == [] then None else Some(PROGRESS_NOTE))
    ensures Verdict(TIGHT, h, prompts, ASK).decision.modelOverride == None
  {
    assert LastOf(prompts, 6) == prompts;
    assert multiset(prompts)["h"] == |prompts|;
  }
}
