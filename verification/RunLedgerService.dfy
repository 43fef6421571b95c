/** The run-ledger service over one run: its Redis keys as fields, its three operations as
    methods. precall is the retry loop itself; what other clients do meanwhile arrives as a
    schedule of atomic effects, one batch at each point where the loop gives up control. */
module RunLedgerService {
  import opened Numbers
  import opened AdmissionRule
  import opened RunLedger
  import opened PrecallProtocol

  datatype Answer =
    | NoSuchRun
    | Raised
    | Rejected(decision: Decision)
    | Granted(decision: Decision, reservation: nat)

  function Flatten(batches: seq<seq<Op>>): seq<Op> {
    if batches == [] then [] else Flatten(batches[..|batches| - 1]) + batches[|batches| - 1]
  }

  predicate Timeless(batches: seq<seq<Op>>) {
    forall b :: b in batches ==> forall op :: op in b ==> !op.Tick?
  }

  /** What the watched version and the epoch of the prompt list say about a stretch of effects. */
  lemma {:induction false} StretchMovesTheVersion(cfg: Settings, s: Store, ops: seq<Op>)
    ensures var s' := ApplyAll(cfg, s, ops);
            && s.version <= s'.version && s.promptEpoch <= s'.promptEpoch
            && (s.version == s'.version ==> s'.run == s.run)
            && (s.version == s'.version && s.promptEpoch == s'.promptEpoch ==> s'.prompts == s.prompts)
            && ((forall op :: op in ops ==> !op.Tick?) ==> s'.promptEpoch == s.promptEpoch)
    decreases ops
  {
    if ops != [] {
      EffectsMoveTheVersion(cfg, s, ops[0]);
      StretchMovesTheVersion(cfg, Apply(cfg, s, ops[0]), ops[1..]);
      assert ops[0] in ops;
    }
  }

  lemma FlattenNext(cfg: Settings, s: Store, batches: seq<seq<Op>>, k: nat)
    requires k < |batches|
    ensures ApplyAll(cfg, s, Flatten(batches[..k + 1])) == ApplyAll(cfg, ApplyAll(cfg, s, Flatten(batches[..k])), batches[k])
  {
    assert batches[..k + 1][..k] == batches[..k];
    ApplyAllConcat(cfg, s, Flatten(batches[..k]), batches[k]);
  }

  /** The stores reached from `start` by the first 0, 1, 2, ... batches. */
  ghost function Reach(cfg: Settings, start: Store, batches: seq<seq<Op>>): nat -> Store {
    (k: nat) => ApplyAll(cfg, start, Flatten(batches[..Min(k, |batches|)]))
  }

  ghost predicate Follows(cfg: Settings, reach: nat -> Store, batches: seq<seq<Op>>) {
    forall k {:trigger batches[k]} :: 0 <= k < |batches| ==> reach(k + 1) == ApplyAll(cfg, reach(k), batches[k])
  }

  lemma ReachFollows(cfg: Settings, start: Store, batches: seq<seq<Op>>)
    ensures Follows(cfg, Reach(cfg, start, batches), batches)
  {
    forall k {:trigger batches[k]} | 0 <= k < |batches|
      ensures Reach(cfg, start, batches)(k + 1) == ApplyAll(cfg, Reach(cfg, start, batches)(k), batches[k])
    {
      FlattenNext(cfg, start, batches, k);
    }
  }

  class Service {
    const cfg: Settings
    var run: Option<RunHash>
    var runExpiry: int
    var version: nat
    var prompts: seq<string>
    var promptExpiry: int
    var promptEpoch: nat
    var reservations: map<nat, Reservation>
    var nextId: nat
    var now: int

    function View(): Store
      reads this
    {
      Store(run, runExpiry, version, prompts, promptExpiry, promptEpoch, reservations, nextId, now)
    }

    constructor (cfg: Settings)
      ensures View() == EMPTY_STORE && this.cfg == cfg
    {
      this.cfg := cfg;
      run, runExpiry, version := None, 0, 0;
      prompts, promptExpiry, promptEpoch := [], 0, 0;
      reservations, nextId, now := map[], 0, 0;
    }

    /** create_run: opens the run unless it exists, and (re)starts its time to live. */
    method CreateRun(budget: int, ttl: Option<int>) returns (held: int)
      modifies this
      ensures View() == RunLedger.CreateRun(old(View()), budget, if ttl.Some? && ttl.value != 0 then ttl.value else cfg.runTtl)
      ensures held == run.value.budget && (old(run).Some? ==> run == old(run)) && (old(run).None? ==> held == budget)
    {
      var seconds := if ttl.Some? && ttl.value != 0 then ttl.value else cfg.runTtl;
      if run.None? {
        run := Some(BLANK.(budget := budget));
      }
      runExpiry := now + seconds;
      version := version + 1;
      held := run.value.budget;
    }

    /** postcall: settles a reservation that is still there, then flags a run that is spent out. */
    method PostCall(body: PostcallRequest)
      modifies this
      ensures View() == RunLedger.PostCall(cfg, old(View()), body)
    {
      if body.reservationId !in reservations {
        return;
      }
      SettleReservation(body);
      FlagIfSpentOut();
    }

    /** The transaction of postcall. */
    method SettleReservation(body: PostcallRequest)
      requires body.reservationId in reservations
      modifies this
      ensures View() == RunLedger.Settle(cfg, old(View()), body)
    {
      var held := reservations[body.reservationId];
      var model := if body.model != "" then body.model else held.model;
      var p := PricesFor(cfg, model);
      var spend := 0;
      if !body.failed {
        spend := WorstCase(p, body.inputTokens, body.outputTokens);
      }
      var h := if run.Some? then run.value else BLANK;
      h := h.(inflight := h.inflight - held.reserved);
      h := h.(concurrent := h.concurrent - 1);
      if spend != 0 {
        h := h.(spend := h.spend + spend);
      }
      run := Some(h);
      reservations := reservations - {body.reservationId};
      runExpiry := now + cfg.runTtl;
      version := version + 1;
    }

    method FlagIfSpentOut()
      modifies this
      ensures View() == RunLedger.FlagHalt(old(View()))
    {
      if run.Some? && run.value.spend >= run.value.budget {
        run := Some(run.value.(halt := true, haltReason := "cost_budget"));
        version := version + 1;
      }
    }

    /** The other clients run one batch of effects, if any is left. */
    method Yield(todo: seq<seq<Op>>) returns (rest: seq<seq<Op>>)
      modifies this
      ensures todo == [] ==> rest == [] && View() == old(View())
      ensures todo != [] ==> rest == todo[1..] && View() == ApplyAll(cfg, old(View()), todo[0])
    {
      rest := todo;
      if todo != [] {
        var s := ApplyAll(cfg, View(), todo[0]);
        run, runExpiry, version := s.run, s.runExpiry, s.version;
        prompts, promptExpiry, promptEpoch := s.prompts, s.promptExpiry, s.promptEpoch;
        reservations, nextId, now := s.reservations, s.nextId, s.now;
        rest := todo[1..];
      }
    }

    /** The queued commands of an admitted precall, executed together. */
    method Exec(req: PrecallRequest, d: Decision) returns (id: nat)
      requires run.Some?
      modifies this
      ensures View() == Reserve(cfg, old(View()), req, d) && id == old(nextId)
    {
      id := nextId;
      var h := run.value;
      var steered := h.steered;
      if !h.steered && h.spend as real >= h.budget as real * cfg.policies.guardThreshold
         && (d.modelOverride.Some? || d.inject.Some?) {
        steered := true;
      }
      run := Some(h.(inflight := h.inflight + d.reserve, concurrent := h.concurrent + 1,
                     steps := Max(h.steps, req.step), steered := steered));
      runExpiry := now + cfg.runTtl;
      reservations := reservations[id := Reservation(d.reserve, req.model, now + cfg.reservationTtl)];
      prompts := [req.call.promptHash] + prompts;
      prompts := LRange(prompts, cfg.policies.loopWindow - 1);
      promptExpiry := now + cfg.runTtl;
      version, nextId := version + 1, nextId + 1;
    }

    /** precall. `at` is the store just before the answer, reached from the initial one by the first
        `used` batches of other clients' effects; `hash` is the run hash and `seen` the prompt list
        decided on. A grant is the atomic admission at that store, on its own hash and on a prompt
        list that is the current one unless time passed; anything else leaves the store alone, and
        a rejection was decided on the hash the store held after `read` batches. */
    method Precall(req: PrecallRequest, others: seq<seq<Op>>)
      returns (answer: Answer, ghost used: nat, ghost at: Store, ghost read: nat, ghost hash: RunHash, ghost seen: seq<string>)
      modifies this
      ensures read <= used <= |others| && at == ApplyAll(cfg, old(View()), Flatten(others[..used]))
      ensures answer.Granted? ==>
                && at.run == Some(hash) && Verdict(cfg, hash, seen, req) == Returns(answer.decision)
                && answer.decision.Admits() && answer.reservation == at.nextId
                && View() == Reserve(cfg, at, req, answer.decision)
                && (Timeless(others) ==> seen == LRange(at.prompts, cfg.policies.loopWindow - 1))
      ensures !answer.Granted? ==> View() == at
      ensures answer.NoSuchRun? <==> at.run.None? && read == used
      ensures answer.Rejected? || answer.Raised? ==>
                && ApplyAll(cfg, old(View()), Flatten(others[..read])).run == Some(hash)
                && Verdict(cfg, hash, seen, req) == (if answer.Raised? then RaisesZeroDivision else Returns(answer.decision))
      ensures answer.Rejected? ==> !answer.decision.Admits()
    {
      var todo := others;
      used := 0;
      ghost var reach := Reach(cfg, View(), others);
      ReachFollows(cfg, View(), others);
      assert others[..0] == [];
      while true
        invariant used + |todo| == |others| && todo == others[used..]
        invariant View() == reach(used)
        decreases |todo|
      {
        var outcome: Option<Answer>;
        outcome, todo, used, at, read, hash, seen := Attempt(req, todo, others, reach, used);
        if outcome.Some? {
          answer := outcome.value;
          return;
        }
      }
    }

    /** One round of the loop, None standing for a WatchError: some other client has then moved. */
    method Attempt(req: PrecallRequest, todo: seq<seq<Op>>, ghost others: seq<seq<Op>>, ghost reach: nat -> Store, ghost used: nat)
      returns (answer: Option<Answer>, rest: seq<seq<Op>>, ghost used': nat, ghost at: Store, ghost read: nat,
               ghost hash: RunHash, ghost seen: seq<string>)
      requires used + |todo| == |others| && todo == others[used..] && Follows(cfg, reach, others)
      requires View() == reach(used)
      modifies this
      ensures used' + |rest| == |others| && rest == others[used'..] && read <= used'
      ensures at == reach(used')
      ensures answer.None? ==> View() == at && |rest| < |todo|
      ensures answer.Some? && answer.value.Granted? ==>
                && at.run == Some(hash) && Verdict(cfg, hash, seen, req) == Returns(answer.value.decision)
                && answer.value.decision.Admits() && answer.value.reservation == at.nextId
                && View() == Reserve(cfg, at, req, answer.value.decision)
                && (Timeless(others) ==> seen == LRange(at.prompts, cfg.policies.loopWindow - 1))
      ensures answer.Some? && !answer.value.Granted? ==> View() == at
      ensures answer.Some? && answer.value.NoSuchRun? <==> answer.Some? && at.run.None? && read == used'
      ensures answer.Some? && (answer.value.Rejected? || answer.value.Raised?) ==>
                && reach(read).run == Some(hash)
                && Verdict(cfg, hash, seen, req) == (if answer.value.Raised? then RaisesZeroDivision else Returns(answer.value.decision))
      ensures answer.Some? && answer.value.Rejected? ==> !answer.value.decision.Admits()
    {
      var watched := version;
      var verdict;
      verdict, rest, used', read, hash, seen := Read(req, todo, others, reach, used);
      at := View();
      if verdict.None? {
        answer := Some(NoSuchRun);
        return;
      }
      if !verdict.value.Admits() {
        answer := Some(if verdict.value.Returns? then Rejected(verdict.value.decision) else Raised);
        return;
      }
      rest, used' := Pass(rest, others, reach, used');
      at := View();
      if version != watched {
        return None, rest, used', at, read, hash, seen;
      }
      var id := Exec(req, verdict.value.decision);
      answer := Some(Granted(verdict.value.decision, id));
    }

    /** Reads the hash and then the prompt list and decides on them; None stands for a run that does
        not exist. What was read is current if the watched version stands. */
    method Read(req: PrecallRequest, todo: seq<seq<Op>>, ghost others: seq<seq<Op>>, ghost reach: nat -> Store, ghost used: nat)
      returns (verdict: Option<Outcome>, rest: seq<seq<Op>>, ghost used': nat, ghost read: nat, ghost hash: RunHash, ghost seen: seq<string>)
      requires used + |todo| == |others| && todo == others[used..] && Follows(cfg, reach, others)
      requires View() == reach(used)
      modifies this
      ensures used' + |rest| == |others| && rest == others[used'..] && read <= used'
      ensures View() == reach(used') && |rest| <= |todo|
      ensures old(version) <= version && (rest == todo ==> version == old(version))
      ensures verdict.None? ==> run.None? && read == used'
      ensures verdict.Some? ==>
                && reach(read).run == Some(hash)
                && verdict.value == Verdict(cfg, hash, seen, req)
                && seen == LRange(prompts, cfg.policies.loopWindow - 1)
                && (version == old(version) ==> run == Some(hash))
    {
      seen, hash := [], BLANK;
      rest, used' := Pass(todo, others, reach, used);
      read := used';
      if run.None? {
        return None, rest, used', read, hash, seen;
      }
      var current := run.value;
      hash := current;
      rest, used' := Pass(rest, others, reach, used');
      var window := LRange(prompts, cfg.policies.loopWindow - 1);
      seen := window;
      var outcome := Decided(current, window, req);
      verdict := Some(outcome);
    }

    method Decided(hash: RunHash, window: seq<string>, req: PrecallRequest) returns (verdict: Outcome)
      ensures verdict == Verdict(cfg, hash, window, req)
    {
      verdict := Decide(MapRun(hash, window, req.step), PricesFor(cfg, req.model), req.call, cfg.policies);
    }

    /** Yield, with the count of batches run so far and what it says about the watched version. */
    method Pass(todo: seq<seq<Op>>, ghost others: seq<seq<Op>>, ghost reach: nat -> Store, ghost used: nat)
      returns (rest: seq<seq<Op>>, ghost used': nat)
      requires used + |todo| == |others| && todo == others[used..] && Follows(cfg, reach, others)
      requires View() == reach(used)
      modifies this
      ensures used' + |rest| == |others| && rest == others[used'..] && used <= used'
      ensures View() == reach(used')
      ensures rest == todo ==> View() == old(View())
      ensures old(version) <= version && old(promptEpoch) <= promptEpoch
      ensures old(version) == version ==> run == old(run)
      ensures old(version) == version && old(promptEpoch) == promptEpoch ==> prompts == old(prompts)
      ensures Timeless(others) ==> promptEpoch == old(promptEpoch)
    {
      rest := Yield(todo);
      used' := used;
      if todo != [] {
        used' := used + 1;
        assert reach(used + 1) == ApplyAll(cfg, reach(used), others[used]);
        StretchMovesTheVersion(cfg, old(View()), todo[0]);
        assert others[used] in others;
      }
    }
  }
}
