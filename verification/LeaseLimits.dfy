/** How far the documented overshoot bound of budget leasing reaches: exactly for which numbers and
    sizes of leases, and with what use of releases and time, all disciplined runs obey it. */
module LeaseLimits {
  import opened Numbers
  import opened BudgetLease

  // ---- where the documented bound fails ----

  /** The start of round k + 1, in seconds. */
  function RoundStart(k: nat): real { 300.0 * k as real }

  /** n rounds of: renew, the n-th time 300 n seconds after the start, then spend all but one. */
  function SlowHolder(n: nat, size: int): seq<Op> {
    if n == 0 then []
    else SlowHolder(n - 1, size) + [RenewOp(0, RoundStart(n - 1))] + [DebitOp(0, size - 1)]
  }

  /** The bound "leaseholders times lease size" does not survive expiry. A single holder that takes
      300 seconds to use up its slice has the slice reclaimed, spent as it is, by its own next
      renewal; it can go on for ever, and n rounds overshoot the budget by n(size - 1) - size. */
  lemma {:induction false} SlowHolderOverspends(n: nat, size: int)
    requires size >= 1
    ensures var p := Run(Fresh(size, [size]), SlowHolder(n, size));
            && Disciplined(Fresh(size, [size]), SlowHolder(n, size))
            && |p.leases| == 1
            && p.past.spend - p.ledger.budget == n * (size - 1) - size
  {
    SlowStart(size);
    SlowRounds(Fresh(size, [size]), n, size);
    TimesIs(n, size - 1);
  }

  /** n * k as a sum. */
  function Times(n: nat, k: int): int { if n == 0 then 0 else Times(n - 1, k) + k }

  lemma {:induction false} TimesIs(n: nat, k: int)
    ensures Times(n, k) == n * k
  {
    if n > 0 {
      TimesIs(n - 1, k);
      assert n * k == (n - 1) * k + k;
    }
  }

  ghost predicate RoundsGo(p: Pool, ops: seq<Op>, n: nat, size: int) {
    AfterRounds(Run(p, ops), n, Times(n, size - 1), size, RoundStart(n)) && Disciplined(p, ops)
  }

  lemma {:induction false} SlowRounds(p: Pool, n: nat, size: int)
    requires size >= 1 && AfterRounds(p, 0, 0, size, 0.0)
    ensures RoundsGo(p, SlowHolder(n, size), n, size)
    decreases n
  {
    if n == 0 {
      assert Run(p, SlowHolder(0, size)) == p;
    } else {
      SlowRounds(p, n - 1, size);
      NextRoundGoes(p, SlowHolder(n - 1, size), n, size);
    }
  }

  lemma NextRoundGoes(p: Pool, before: seq<Op>, n: nat, size: int)
    requires size >= 1 && n >= 1 && RoundsGo(p, before, n - 1, size)
    ensures RoundsGo(p, before + [RenewOp(0, RoundStart(n - 1))] + [DebitOp(0, size - 1)], n, size)
  {
    SlowRoundRun(p, before, n, Times(n - 1, size - 1), size, RoundStart(n - 1));
    RoundLength(n);
  }

  lemma RoundLength(n: nat)
    requires n >= 1
    ensures RoundStart(n - 1) + TTL == RoundStart(n)
  {
  }

  lemma SlowStart(size: int)
    ensures AfterRounds(Fresh(size, [size]), 0, 0, size, 0.0)
  {
    assert Fresh(size, [size]).leases == [FreshLease(size)];
  }

  lemma SlowRoundRun(p: Pool, before: seq<Op>, n: nat, spent: int, size: int, start: real)
    requires size >= 1 && n >= 1 && Disciplined(p, before)
    requires AfterRounds(Run(p, before), n - 1, spent, size, start)
    ensures var ops := before + [RenewOp(0, start)] + [DebitOp(0, size - 1)];
            Disciplined(p, ops) && AfterRounds(Run(p, ops), n, spent + size - 1, size, start + TTL)
  {
    RunSnoc(p, before, RenewOp(0, start));
    RunSnoc(p, before + [RenewOp(0, start)], DebitOp(0, size - 1));
    SlowRound(Run(p, before), n, spent, size, start);
  }

  /** The pool after n rounds that have spent `spent`. */
  ghost predicate AfterRounds(p: Pool, n: nat, spent: int, size: int, expiry: real) {
    && p.leases == [LeaseState(size, n, spent, false, n)]
    && p.past.spend == spent
    && p.ledger == (if n == 0 then FreshLedger(size)
                    else LedgerState(size, size, 0, false, n + 1, map[n as int := Grant(size, n, expiry)]))
  }

  lemma SlowRound(q: Pool, n: nat, spent: int, size: int, start: real)
    requires size >= 1 && n >= 1 && AfterRounds(q, n - 1, spent, size, start)
    ensures var q1 := Step(q, RenewOp(0, start));
            && |q1.leases| == 1 && q1.leases[0].remaining == n - 1 + size && q1.leases[0].size == size
            && AfterRounds(Step(q1, DebitOp(0, size - 1)), n, spent + size - 1, size, start + TTL)
  {
    SlowIssue(q.ledger, n, size, start);
    var q1 := Step(q, RenewOp(0, start));
    assert q1.leases == [LeaseState(size, n - 1 + size, spent, false, n)];
    assert Step(q1, DebitOp(0, size - 1)).leases == [LeaseState(size, n, spent + size - 1, false, n)];
  }

  /** The ledger's side of one round: the old slice is reclaimed and a full one is issued. */
  lemma SlowIssue(l: LedgerState, n: nat, size: int, start: real)
    requires size >= 1 && n >= 1
    requires l == if n == 1 then FreshLedger(size)
                  else LedgerState(size, size, 0, false, n, map[n - 1 := Grant(size, n - 1, start)])
    ensures Issue(l, size, start, TTL)
            == (LedgerState(size, size, 0, false, n + 1, map[n as int := Grant(size, n, start + TTL)]),
                Some(Grant(size, n, start + TTL)))
  {
    assert Live(l, start) == map[];
    NoneBelow(n);
    OneBelow(n - 1, size, n);
    assert Reclaim(l, start) == l.(granted := 0, outstanding := map[]);
  }

  // ---- exactly when the documented bound holds ----

  /** All calls that read a clock read one between 0 and the limit. */
  predicate TimedWithin(ops: seq<Op>, limit: real) {
    forall op :: op in ops && (op.RenewOp? || op.ReclaimOp?) ==> 0.0 <= op.now <= limit
  }

  predicate ReleaseFree(ops: seq<Op>) { forall op :: op in ops ==> !op.ReleaseOp? }

  /** Disciplined use of leases of at most the given size, within a limit of time. */
  predicate Permitted(budget: int, sizes: seq<int>, size: int, ops: seq<Op>, limit: real) {
    && budget >= 0 && size >= 1 && (forall i :: 0 <= i < |sizes| ==> 0 <= sizes[i] <= size)
    && Disciplined(Fresh(budget, sizes), ops) && TimedWithin(ops, limit)
  }

  lemma {:induction false} EarlyRunsReclaimNothing(p: Pool, ops: seq<Op>, limit: real)
    requires TimedWithin(ops, limit) && limit < TTL && p.past.reclaimed == 0
    requires forall t :: t in p.ledger.outstanding ==> p.ledger.outstanding[t].expiresAt >= TTL
    ensures var q := Run(p, ops);
            && q.past.reclaimed == 0
            && forall t :: t in q.ledger.outstanding ==> q.ledger.outstanding[t].expiresAt >= TTL
    decreases |ops|
  {
    if ops != [] {
      var init, op := ops[..|ops| - 1], ops[|ops| - 1];
      EarlyRunsReclaimNothing(p, init, limit);
      assert op in ops;
      EarlyStepReclaimsNothing(Run(p, init), op);
    }
  }

  lemma EarlyStepReclaimsNothing(p: Pool, op: Op)
    requires op.RenewOp? || op.ReclaimOp? ==> 0.0 <= op.now < TTL
    requires forall t :: t in p.ledger.outstanding ==> p.ledger.outstanding[t].expiresAt >= TTL
    ensures Step(p, op).past.reclaimed == p.past.reclaimed
    ensures forall t :: t in Step(p, op).ledger.outstanding ==> Step(p, op).ledger.outstanding[t].expiresAt >= TTL
  {
    var now := if op.RenewOp? || op.ReclaimOp? then op.now else 0.0;
    AllLive(p.ledger, now);
  }

  lemma {:induction false} ReleaseFreeRunsEndNoEpoch(p: Pool, ops: seq<Op>)
    requires ReleaseFree(ops)
    ensures Run(p, ops).past.ended == p.past.ended
    decreases |ops|
  {
    if ops != [] {
      ReleaseFreeRunsEndNoEpoch(p, ops[..|ops| - 1]);
      assert ops[|ops| - 1] in ops;
    }
  }

  /** The overshoot bound per lease epoch holds for all disciplined runs within a limit of time if and
      only if that limit is below the time to live of a grant. */
  lemma EpochBoundExactly(limit: real)
    requires limit >= 0.0
    ensures (forall budget, sizes, size, ops :: Permitted(budget, sizes, size, ops, limit) ==>
               var p := Run(Fresh(budget, sizes), ops);
               p.past.spend <= budget + Epochs(p) * (size - 1)) <==> limit < TTL
  {
    if limit < TTL {
      forall budget, sizes, size, ops | Permitted(budget, sizes, size, ops, limit)
        ensures var p := Run(Fresh(budget, sizes), ops);
                p.past.spend <= budget + Epochs(p) * (size - 1)
      {
        EarlyRunsReclaimNothing(Fresh(budget, sizes), ops, limit);
        OvershootBound(budget, sizes, size, ops);
      }
    } else {
      LateRunOverspends(3, 1, 1, limit);
      var p := Run(Fresh(1, Same(1, 1)), LateRun(3, 1));
      assert Permitted(1, Same(1, 1), 1, LateRun(3, 1), limit) && p.past.spend == 3 && Epochs(p) * (1 - 1) == 0;
    }
  }

  /** Disciplined use of n leases, with or without releases, of equal or of differing size. */
  ghost predicate InClass(n: nat, size: int, limit: real, releases: bool, equal: bool, budget: int, sizes: seq<int>, ops: seq<Op>) {
    && |sizes| == n && Permitted(budget, sizes, size, ops, limit) && (releases || ReleaseFree(ops))
    && (equal ==> forall i :: 0 <= i < n ==> sizes[i] == size)
  }

  /** The documented bound, leaseholders times lease size, for given numbers: it holds for all
      disciplined runs within a limit of time if and only if that limit is below the time to live of a
      grant and, should leases be released, there is a single one or their size is at most 2. */
  lemma LeaseholderBoundExactly(n: nat, size: int, limit: real, releases: bool, equal: bool)
    requires size >= 1 && limit >= 0.0
    ensures (forall budget, sizes, ops :: InClass(n, size, limit, releases, equal, budget, sizes, ops) ==>
               Run(Fresh(budget, sizes), ops).past.spend <= budget + n * size) <==>
            n == 0 || (limit < TTL && (!releases || n == 1 || size <= 2))
  {
    if n > 0 && limit >= TTL {
      LateRunOverspends(n + 2, n, size, limit);
      assert (n + 2) * size == n * size + size + size;
      assert InClass(n, size, limit, releases, equal, size, Same(n, size), LateRun(n + 2, size));
    } else if n > 1 && releases && size > 2 {
      var m := n * size + 2;
      ReleasesOverspend(m, n, size);
      RoundsPile(m, size);
      assert InClass(n, size, limit, releases, equal, ReleasingBudget(m, size), Same(n, size), ReleasingRun(m, size));
    } else {
      forall budget, sizes, ops | InClass(n, size, limit, releases, equal, budget, sizes, ops)
        ensures Run(Fresh(budget, sizes), ops).past.spend <= budget + n * size
      {
        BoundHolds(n, size, limit, releases, budget, sizes, ops);
      }
    }
  }

  lemma BoundHolds(n: nat, size: int, limit: real, releases: bool, budget: int, sizes: seq<int>, ops: seq<Op>)
    requires n == 0 || (limit < TTL && (!releases || n == 1 || size <= 2))
    requires InClass(n, size, limit, releases, false, budget, sizes, ops)
    ensures Run(Fresh(budget, sizes), ops).past.spend <= budget + n * size
  {
    LessPerLease(n, size);
    if n == 0 {
      NobodySpends(Fresh(budget, sizes), ops);
    } else if !releases {
      ReleaseFreeBound(budget, sizes, size, ops, limit);
    } else if n == 1 {
      SingleHolderBound(budget, sizes, size, ops, limit);
    } else {
      EarlyRunsReclaimNothing(Fresh(budget, sizes), ops, limit);
      SmallSizesBound(budget, sizes, size, ops);
    }
  }

  lemma LessPerLease(n: nat, size: int)
    ensures n * (size - 1) <= n * size
    ensures n == 1 ==> n * size == size
  {
    assert n * (size - 1) == n * size - n;
  }

  lemma ReleaseFreeBound(budget: int, sizes: seq<int>, size: int, ops: seq<Op>, limit: real)
    requires Permitted(budget, sizes, size, ops, limit) && limit < TTL && ReleaseFree(ops)
    ensures Run(Fresh(budget, sizes), ops).past.spend <= budget + |sizes| * (size - 1)
  {
    EarlyRunsReclaimNothing(Fresh(budget, sizes), ops, limit);
    ReleaseFreeRunsEndNoEpoch(Fresh(budget, sizes), ops);
    OvershootBound(budget, sizes, size, ops);
  }

  lemma {:induction false} NobodySpends(p: Pool, ops: seq<Op>)
    requires p.leases == []
    ensures Run(p, ops).past.spend == p.past.spend && Run(p, ops).leases == []
    decreases |ops|
  {
    if ops != [] {
      NobodySpends(p, ops[..|ops| - 1]);
    }
  }

  // ---- a single leaseholder may release ----

  /** The ledger issues nothing, now or after a release that hands nothing back. */
  predicate Stuck(l: LedgerState) { l.halted || l.granted >= l.budget }

  /** A lease that holds r after epochs that fell short by `short` in all has not been overdrawn for
      good, or it was, once, and will hold nothing again. */
  predicate OverdrawnOnce(r: int, short: int, size: int, stuck: bool) {
    || (short == 0 && r >= 1 - size && (r < 0 ==> stuck))
    || (short <= size - 1 && r == 0 && stuck)
  }

  ghost predicate OneHolder(p: Pool, size: int) {
    && |p.leases| == 1 && 0 <= p.leases[0].size <= size
    && OverdrawnOnce(p.leases[0].remaining, Shortfall(p.past.ended), size, Stuck(p.ledger))
  }


  lemma {:induction false} RenewKeepsOneHolder(p: Pool, now: real, size: int)
    requires size >= 1 && OneHolder(p, size) && Live(p.ledger, now) == p.ledger.outstanding
    ensures OneHolder(StepRenew(p, 0, now), size)
  {
  }

  lemma {:induction false} DebitKeepsOneHolder(p: Pool, cost: int, size: int)
    requires size >= 1 && OneHolder(p, size) && Live(p.ledger, 0.0) == p.ledger.outstanding
    requires p.leases[0].remaining > 0 && 0 <= cost <= p.leases[0].size
    ensures OneHolder(StepDebit(p, 0, cost), size)
  {
    var x := p.leases[0];
  }

  lemma {:induction false} ReleaseKeepsOneHolder(p: Pool, size: int)
    requires size >= 1 && OneHolder(p, size)
    ensures OneHolder(StepRelease(p, 0), size)
  {
    EndedSnoc(p.past.ended, p.leases[0].remaining);
  }

  lemma {:induction false} SingleHolderRuns(budget: int, sizes: seq<int>, size: int, ops: seq<Op>, limit: real)
    requires |sizes| == 1 && Permitted(budget, sizes, size, ops, limit) && limit < TTL
    ensures OneHolder(Run(Fresh(budget, sizes), ops), size)
    decreases |ops|
  {
    if ops != [] {
      var p, init, op := Fresh(budget, sizes), ops[..|ops| - 1], ops[|ops| - 1];
      assert op in ops;
      SingleHolderRuns(budget, sizes, size, init, limit);
      EarlyRunsReclaimNothing(p, init, limit);
      var q := Run(p, init);
      AllLive(q.ledger, if op.RenewOp? || op.ReclaimOp? then op.now else 0.0);
      match op
      case RenewOp(i, now) => if i == 0 { RenewKeepsOneHolder(q, now, size); }
      case DebitOp(i, cost) => if i == 0 { DebitKeepsOneHolder(q, cost, size); }
      case ReleaseOp(i) => if i == 0 { ReleaseKeepsOneHolder(q, size); }
      case ReclaimOp(_) =>
    }
  }

  lemma SingleHolderBound(budget: int, sizes: seq<int>, size: int, ops: seq<Op>, limit: real)
    requires |sizes| == 1 && Permitted(budget, sizes, size, ops, limit) && limit < TTL
    ensures Run(Fresh(budget, sizes), ops).past.spend <= budget + size - 1
  {
    var p := Run(Fresh(budget, sizes), ops);
    SingleHolderRuns(budget, sizes, size, ops, limit);
    EarlyRunsReclaimNothing(Fresh(budget, sizes), ops, limit);
    SpendingLaw(budget, sizes, ops);
    assert Held(p.leases) == [] + [p.leases[0].remaining];
    EndedSnoc([], p.leases[0].remaining);
  }

  // ---- leases of size 2 or less may be released ----

  /** The most by which a lease can still be overdrawn once the ledger has halted. */
  function Risk(r: int, size: int): int { if r > 0 then size - 1 else -r }

  function Risks(leases: seq<LeaseState>, size: int): (xs: seq<int>)
    ensures |xs| == |leases|
  {
    seq(|leases|, i requires 0 <= i < |leases| => Risk(leases[i].remaining, size))
  }

  /** Until the ledger halts nothing is overdrawn; then each lease can be, once. */
  ghost predicate Small(p: Pool, size: int) {
    && (forall i {:trigger p.leases[i]} :: 0 <= i < |p.leases| ==> 0 <= p.leases[i].size <= size)
    && (if p.ledger.halted then Shortfall(p.past.ended) + Total(Risks(p.leases, size)) <= |p.leases| * (size - 1)
        else Shortfall(p.past.ended) == 0 && forall i {:trigger p.leases[i]} :: 0 <= i < |p.leases| ==> p.leases[i].remaining >= 0)
  }

  lemma {:induction false} TotalAtMost(xs: seq<int>, k: int)
    requires forall i :: 0 <= i < |xs| ==> xs[i] <= k
    ensures Total(xs) <= |xs| * k
    decreases |xs|
  {
    if xs != [] {
      TotalAtMost(xs[..|xs| - 1], k);
      assert |xs| * k == (|xs| - 1) * k + k;
    }
  }

  lemma {:induction false} ShortfallAtMostTotal(xs: seq<int>, ys: seq<int>)
    requires |xs| == |ys| && forall i :: 0 <= i < |xs| ==> Max(0, -xs[i]) <= ys[i]
    ensures Shortfall(xs) <= Total(ys)
    decreases |xs|
  {
    if xs != [] {
      ShortfallAtMostTotal(xs[..|xs| - 1], ys[..|ys| - 1]);
    }
  }

  lemma RiskUpdate(leases: seq<LeaseState>, i: nat, x: LeaseState, size: int)
    requires i < |leases|
    ensures Total(Risks(leases[i := x], size))
            == Total(Risks(leases, size)) - Risk(leases[i].remaining, size) + Risk(x.remaining, size)
  {
    TotalUpdate(Risks(leases, size), i, Risk(x.remaining, size));
    assert Risks(leases[i := x], size) == Risks(leases, size)[i := Risk(x.remaining, size)];
  }

  /** The step at which the ledger halts leaves every lease with at most the risk of one overdraft. */
  lemma HaltingIsSmall(p: Pool, size: int, i: nat, x': LeaseState, p': Pool)
    requires size >= 1 && Small(p, size) && !p.ledger.halted && i < |p.leases|
    requires p'.leases == p.leases[i := x'] && p'.past.ended == p.past.ended && p'.ledger.halted
    requires x'.remaining >= 1 - size && 0 <= x'.size <= size
    ensures Small(p', size)
  {
    TotalAtMost(Risks(p'.leases, size), size - 1);
  }

  lemma RenewKeepsSmall(p: Pool, i: nat, now: real, size: int)
    requires 1 <= size <= 2 && Small(p, size) && i < |p.leases|
    ensures Small(StepRenew(p, i, now), size)
  {
    var (l', x') := Renew(p.ledger, p.leases[i], now);
    if p.ledger.halted {
      RiskUpdate(p.leases, i, x', size);
    } else if l'.halted {
      HaltingIsSmall(p, size, i, x', StepRenew(p, i, now));
    }
  }

  lemma DebitKeepsSmall(p: Pool, i: nat, cost: int, size: int)
    requires 1 <= size <= 2 && Small(p, size) && i < |p.leases|
    requires p.leases[i].remaining > 0 && 0 <= cost <= p.leases[i].size
    ensures Small(StepDebit(p, i, cost), size)
  {
    var (l', x') := Debit(p.ledger, p.leases[i], cost);
    if p.ledger.halted {
      RiskUpdate(p.leases, i, x', size);
    } else if l'.halted {
      HaltingIsSmall(p, size, i, x', StepDebit(p, i, cost));
    }
  }

  lemma ReleaseKeepsSmall(p: Pool, i: nat, size: int)
    requires 1 <= size <= 2 && Small(p, size) && i < |p.leases|
    ensures Small(StepRelease(p, i), size)
  {
    EndedSnoc(p.past.ended, p.leases[i].remaining);
    RiskUpdate(p.leases, i, StepRelease(p, i).leases[i], size);
  }

  lemma StepKeepsSmall(p: Pool, op: Op, size: int)
    requires 1 <= size <= 2 && Small(p, size)
    requires op.DebitOp? && op.i < |p.leases| ==> p.leases[op.i].remaining > 0 && 0 <= op.cost <= p.leases[op.i].size
    ensures Small(Step(p, op), size)
  {
    match op
    case RenewOp(i, now) => if i < |p.leases| { RenewKeepsSmall(p, i, now, size); }
    case DebitOp(i, cost) => if i < |p.leases| { DebitKeepsSmall(p, i, cost, size); }
    case ReleaseOp(i) => if i < |p.leases| { ReleaseKeepsSmall(p, i, size); }
    case ReclaimOp(_) =>
  }

  lemma {:induction false} SmallRuns(budget: int, sizes: seq<int>, size: int, ops: seq<Op>)
    requires 1 <= size <= 2 && (forall i :: 0 <= i < |sizes| ==> 0 <= sizes[i] <= size)
    requires Disciplined(Fresh(budget, sizes), ops)
    ensures Small(Run(Fresh(budget, sizes), ops), size)
    decreases |ops|
  {
    if ops != [] {
      SmallRuns(budget, sizes, size, ops[..|ops| - 1]);
      StepKeepsSmall(Run(Fresh(budget, sizes), ops[..|ops| - 1]), ops[|ops| - 1], size);
    }
  }

  lemma SmallSizesBound(budget: int, sizes: seq<int>, size: int, ops: seq<Op>)
    requires budget >= 0 && 1 <= size <= 2 && (forall i :: 0 <= i < |sizes| ==> 0 <= sizes[i] <= size)
    requires Disciplined(Fresh(budget, sizes), ops) && Run(Fresh(budget, sizes), ops).past.reclaimed == 0
    ensures Run(Fresh(budget, sizes), ops).past.spend <= budget + |sizes| * (size - 1)
  {
    var p := Run(Fresh(budget, sizes), ops);
    SmallRuns(budget, sizes, size, ops);
    SpendingLaw(budget, sizes, ops);
    BudgetIsFixed(Fresh(budget, sizes), ops);
    SmallShortfall(p, size);
  }

  lemma SmallShortfall(p: Pool, size: int)
    requires 1 <= size <= 2 && Small(p, size)
    ensures Shortfall(p.past.ended) + Shortfall(Held(p.leases)) <= |p.leases| * (size - 1)
  {
    if p.ledger.halted {
      ShortfallAtMostTotal(Held(p.leases), Risks(p.leases, size));
    } else {
      ShortfallBound(Held(p.leases), 0);
      assert |p.leases| * (size - 1) >= 0;
    }
  }

  // ---- late runs: nothing is released, but grants expire ----

  function Same(n: nat, size: int): (sizes: seq<int>)
    ensures |sizes| == n && forall i :: 0 <= i < n ==> sizes[i] == size
  {
    seq(n, i => size)
  }

  /** The first lease, on a budget of its size: renewed at time 0, found expired at time 300, then n
      times spent dry, which renews it with the clock read as 0, and found expired again. */
  function LateRun(n: nat, size: int): seq<Op> { LateRounds([] + [RenewOp(0, 0.0)] + [ReclaimOp(300.0)], n, size) }

  function LateRounds(ops: seq<Op>, n: nat, size: int): seq<Op>
    decreases n
  {
    if n == 0 then ops else LateRounds(ops + [DebitOp(0, size)] + [ReclaimOp(300.0)], n - 1, size)
  }

  /** The pool after n such rounds that have spent `spent`; the other leases are idle. */
  ghost predicate Late(p: Pool, n: nat, size: int, spent: int, idle: seq<LeaseState>) {
    && p.leases == [LeaseState(size, size, spent, false, n + 1)] + idle && p.past.spend == spent && p.past.ended == []
    && p.ledger == LedgerState(size, 0, 0, false, n + 2, map[])
  }

  /** The same pool while the grant of token n + 1 is outstanding. */
  ghost predicate Between(p: Pool, n: nat, size: int, spent: int, idle: seq<LeaseState>) {
    && p.leases == [LeaseState(size, size, spent, false, n + 1)] + idle && p.past.spend == spent && p.past.ended == []
    && p.ledger == LedgerState(size, size, 0, false, n + 2, map[n + 1 := Grant(size, n + 1, 300.0)])
  }

  /** The same pool before that grant. */
  ghost predicate Dry(p: Pool, n: nat, size: int, spent: int, idle: seq<LeaseState>) {
    && p.leases == [LeaseState(size, 0, spent, false, n)] + idle && p.past.spend == spent && p.past.ended == []
    && p.ledger == LedgerState(size, 0, 0, false, n + 1, map[])
  }

  lemma LateIssue(l: LedgerState, n: nat, size: int)
    requires size >= 1 && l == LedgerState(size, 0, 0, false, n + 1, map[])
    ensures Issue(l, size, 0.0, TTL)
            == (LedgerState(size, size, 0, false, n + 2, map[n + 1 := Grant(size, n + 1, 300.0)]), Some(Grant(size, n + 1, 300.0)))
  {
    assert Live(l, 0.0) == map[];
  }

  lemma LateReclaim(l: LedgerState, n: nat, size: int)
    requires l == LedgerState(size, size, 0, false, n + 2, map[n + 1 := Grant(size, n + 1, 300.0)])
    ensures Reclaim(l, 300.0) == LedgerState(size, 0, 0, false, n + 2, map[])
  {
    assert Live(l, 300.0) == map[];
    NoneBelow(n + 2);
    OneBelow(n + 1, size, n + 2);
  }

  lemma Starts(p: Pool, n: nat, size: int, spent: int, idle: seq<LeaseState>)
    requires size >= 1 && Dry(p, n, size, spent, idle)
    ensures Between(StepRenew(p, 0, 0.0), n, size, spent, idle)
  {
    LateIssue(p.ledger, n, size);
  }

  lemma RunsDry(p: Pool, n: nat, size: int, spent: int, idle: seq<LeaseState>)
    requires size >= 1 && Late(p, n, size, spent, idle)
    ensures Between(StepDebit(p, 0, size), n + 1, size, spent + size, idle)
  {
    LateIssue(p.ledger, n + 1, size);
  }

  lemma Expires(p: Pool, n: nat, size: int, spent: int, idle: seq<LeaseState>)
    requires Between(p, n, size, spent, idle)
    ensures Late(Step(p, ReclaimOp(300.0)), n, size, spent, idle)
  {
    LateReclaim(p.ledger, n, size);
  }

  lemma {:induction false} LateRoundsAreTimed(ops: seq<Op>, n: nat, size: int)
    requires TimedWithin(ops, 300.0) && ReleaseFree(ops)
    ensures TimedWithin(LateRounds(ops, n, size), 300.0) && ReleaseFree(LateRounds(ops, n, size))
    decreases n
  {
    if n > 0 {
      LateRoundsAreTimed(ops + [DebitOp(0, size)] + [ReclaimOp(300.0)], n - 1, size);
    }
  }

  lemma DisciplinedSnoc(p: Pool, ops: seq<Op>, op: Op)
    requires Disciplined(p, ops)
    requires op.DebitOp? && op.i < |Run(p, ops).leases| ==>
               Run(p, ops).leases[op.i].remaining > 0 && 0 <= op.cost <= Run(p, ops).leases[op.i].size
    ensures Disciplined(p, ops + [op]) && Run(p, ops + [op]) == Step(Run(p, ops), op)
  {
    RunSnoc(p, ops, op);
  }

  ghost predicate LateTo(p: Pool, ops: seq<Op>, n: nat, size: int, spent: int, idle: seq<LeaseState>) {
    Disciplined(p, ops) && Late(Run(p, ops), n, size, spent, idle)
  }

  lemma {:induction false} LateNext(p: Pool, ops: seq<Op>, n: nat, size: int, spent: int, idle: seq<LeaseState>)
    requires size >= 1 && LateTo(p, ops, n, size, spent, idle)
    ensures LateTo(p, ops + [DebitOp(0, size)] + [ReclaimOp(300.0)], n + 1, size, spent + size, idle)
  {
    RunsDry(Run(p, ops), n, size, spent, idle);
    DisciplinedSnoc(p, ops, DebitOp(0, size));
    Expires(Run(p, ops + [DebitOp(0, size)]), n + 1, size, spent + size, idle);
    DisciplinedSnoc(p, ops + [DebitOp(0, size)], ReclaimOp(300.0));
  }

  lemma {:induction false} LateFirst(p: Pool, ops: seq<Op>, n: nat, size: int, spent: int, idle: seq<LeaseState>)
    requires size >= 1 && Disciplined(p, ops) && Dry(Run(p, ops), n, size, spent, idle)
    ensures LateTo(p, ops + [RenewOp(0, 0.0)] + [ReclaimOp(300.0)], n, size, spent, idle)
  {
    Starts(Run(p, ops), n, size, spent, idle);
    DisciplinedSnoc(p, ops, RenewOp(0, 0.0));
    Expires(Run(p, ops + [RenewOp(0, 0.0)]), n, size, spent, idle);
    DisciplinedSnoc(p, ops + [RenewOp(0, 0.0)], ReclaimOp(300.0));
  }

  /** Induction over the rounds, for any property of runs, counts and spending that a round keeps. */
  lemma {:induction false} RoundsKeep(good: (seq<Op>, nat, int) -> bool, ops: seq<Op>, done: nat, n: nat, size: int, spent: int)
    requires good(ops, done, spent)
    requires forall o: seq<Op>, d: nat, s: int, o': seq<Op>, d': nat, s': int ::
               good(o, d, s) && o' == o + [DebitOp(0, size)] + [ReclaimOp(300.0)] && d' == d + 1 && s' == s + size ==> good(o', d', s')
    ensures good(LateRounds(ops, n, size), done + n, spent + Times(n, size))
    decreases n
  {
    if n > 0 {
      var next := ops + [DebitOp(0, size)] + [ReclaimOp(300.0)];
      assert good(next, done + 1, spent + size);
      RoundsKeep(good, next, done + 1, n - 1, size, spent + size);
    }
  }

  ghost function IsLate(p: Pool, size: int, idle: seq<LeaseState>): (seq<Op>, nat, int) -> bool {
    (ops: seq<Op>, n: nat, spent: int) => LateTo(p, ops, n, size, spent, idle)
  }

  lemma {:induction false} LateRoundsAreLate(p: Pool, ops: seq<Op>, n: nat, size: int, idle: seq<LeaseState>)
    requires size >= 1 && LateTo(p, ops, 0, size, 0, idle)
    ensures LateTo(p, LateRounds(ops, n, size), n, size, Times(n, size), idle)
  {
    var good := IsLate(p, size, idle);
    forall o: seq<Op>, d: nat, s: int, o': seq<Op>, d': nat, s': int |
      good(o, d, s) && o' == o + [DebitOp(0, size)] + [ReclaimOp(300.0)] && d' == d + 1 && s' == s + size
      ensures good(o', d', s')
    {
      LateAgain(p, size, idle, o, d, s, o');
    }
    RoundsKeep(good, ops, 0, n, size, 0);
    assert good(LateRounds(ops, n, size), n, Times(n, size));
  }

  lemma {:induction false} LateAgain(p: Pool, size: int, idle: seq<LeaseState>, ops: seq<Op>, n: nat, spent: int, ops': seq<Op>)
    requires size >= 1 && IsLate(p, size, idle)(ops, n, spent) && ops' == ops + [DebitOp(0, size)] + [ReclaimOp(300.0)]
    ensures IsLate(p, size, idle)(ops', n + 1, spent + size)
  {
    LateNext(p, ops, n, size, spent, idle);
  }

  lemma FreshIsDry(holders: nat, size: int)
    requires holders >= 1
    ensures var p := Fresh(size, Same(holders, size));
            Disciplined(p, []) && Dry(Run(p, []), 0, size, 0, p.leases[1..])
  {
    var p := Fresh(size, Same(holders, size));
    assert p.leases == [p.leases[0]] + p.leases[1..];
  }

  /** Within 300 seconds and without a release, overshoot has no limit: whatever the number of
      leaseholders, one of them spends n slices on a budget of one. */
  lemma LateRunOverspends(n: nat, holders: nat, size: int, limit: real)
    requires size >= 1 && holders >= 1 && limit >= TTL
    ensures Permitted(size, Same(holders, size), size, LateRun(n, size), limit) && ReleaseFree(LateRun(n, size))
    ensures var p := Run(Fresh(size, Same(holders, size)), LateRun(n, size));
            p.past.spend == n * size && Epochs(p) == holders
  {
    var p := Fresh(size, Same(holders, size));
    FreshIsDry(holders, size);
    LateFirst(p, [], 0, size, 0, p.leases[1..]);
    LateRoundsAreTimed([] + [RenewOp(0, 0.0)] + [ReclaimOp(300.0)], n, size);
    LateRoundsAreLate(p, [] + [RenewOp(0, 0.0)] + [ReclaimOp(300.0)], n, size, p.leases[1..]);
    TimesIs(n, size);
  }

  // ---- runs at time 0, where nothing expires ----

  /** What matters of a pool while nothing expires: `open` says whose newest token is outstanding. */
  datatype Calm = Calm(budget: int, granted: int, halted: bool, held: seq<int>, open: seq<bool>, spend: int)

  predicate ValidCalm(c: Calm) { |c.held| == |c.open| }

  function CalmRenew(c: Calm, i: nat, size: int): Calm
    requires ValidCalm(c) && i < |c.held|
  {
    if c.halted then c
    else if c.budget <= c.granted then c.(halted := true)
    else
      var amount := Min(size, c.budget - c.granted);
      c.(granted := c.granted + amount, held := c.held[i := c.held[i] + amount], open := c.open[i := true])
  }

  function CalmStep(c: Calm, op: Op, size: int): (c': Calm)
    requires ValidCalm(c)
    ensures ValidCalm(c')
  {
    match op
    case RenewOp(i, _) => if i < |c.held| then CalmRenew(c, i, size) else c
    case DebitOp(i, cost) =>
      if i >= |c.held| then c
      else
        var spent := c.(spend := c.spend + cost, held := c.held[i := c.held[i] - cost]);
        if spent.held[i] <= 0 then CalmRenew(spent, i, size) else spent
    case ReleaseOp(i) =>
      if i >= |c.held| then c
      else
        c.(granted := c.granted - (if c.open[i] then Max(0, c.held[i]) else 0), held := c.held[i := 0], open := c.open[i := false])
    case ReclaimOp(_) => c
  }

  ghost predicate Abides(p: Pool, c: Calm, size: int) {
    && ValidCalm(c) && |p.leases| == |c.held|
    && p.ledger.budget == c.budget && p.ledger.granted == c.granted && p.ledger.halted == c.halted && p.past.spend == c.spend
    && (forall t :: t in p.ledger.outstanding ==> t < p.ledger.nextToken && p.ledger.outstanding[t].expiresAt > 0.0)
    && (forall i {:trigger p.leases[i]} :: 0 <= i < |p.leases| ==>
          && p.leases[i].size == size && p.leases[i].remaining == c.held[i] && p.leases[i].token < p.ledger.nextToken
          && (c.open[i] <==> p.leases[i].token in p.ledger.outstanding))
    && (forall i, j :: 0 <= i < j < |p.leases| && c.open[i] && c.open[j] ==> p.leases[i].token != p.leases[j].token)
  }

  lemma CalmIssue(l: LedgerState, size: int)
    requires forall t :: t in l.outstanding ==> l.outstanding[t].expiresAt > 0.0
    ensures var (l', g) := Issue(l, size, 0.0, TTL);
            if l.halted then l' == l && g.None?
            else if l.budget <= l.granted then l' == l.(halted := true) && g.None?
            else g == Some(Grant(Min(size, l.budget - l.granted), l.nextToken, TTL))
                 && l' == l.(granted := l.granted + g.value.amount, nextToken := l.nextToken + 1,
                             outstanding := l.outstanding[l.nextToken := g.value])
  {
    AllLive(l, 0.0);
  }

  lemma CalmRenewal(p: Pool, c: Calm, size: int, i: nat, x: LeaseState, past: Past)
    requires Abides(p, c, size) && i < |p.leases| && x.size == size && x.token == p.leases[i].token
    requires c.held[i] == x.remaining || c.held[i] == p.leases[i].remaining
    ensures var (l', x') := Renew(p.ledger, x, 0.0);
            var spent := c.(held := c.held[i := x.remaining], spend := past.spend);
            Abides(Pool(l', p.leases[i := x'], past), CalmRenew(spent, i, size), size)
  {
    CalmIssue(p.ledger, size);
  }

  lemma RenewAbides(p: Pool, c: Calm, size: int, i: nat)
    requires Abides(p, c, size) && i < |p.leases|
    ensures Abides(StepRenew(p, i, 0.0), CalmRenew(c, i, size), size)
  {
    CalmRenewal(p, c, size, i, p.leases[i], StepRenew(p, i, 0.0).past);
    assert c.held[i := p.leases[i].remaining] == c.held;
  }

  lemma SpendAbides(p: Pool, c: Calm, size: int, i: nat, cost: int)
    requires Abides(p, c, size) && i < |p.leases|
    ensures var x := p.leases[i];
            Abides(Pool(p.ledger, p.leases[i := x.(remaining := x.remaining - cost, spent := x.spent + cost)],
                        p.past.(spend := p.past.spend + cost)),
                   c.(spend := c.spend + cost, held := c.held[i := c.held[i] - cost]), size)
  {
  }

  lemma DebitAbides(p: Pool, c: Calm, size: int, i: nat, cost: int)
    requires Abides(p, c, size) && i < |p.leases|
    ensures Abides(StepDebit(p, i, cost), CalmStep(c, DebitOp(i, cost), size), size)
  {
    SpendAbides(p, c, size, i, cost);
    var x := p.leases[i];
    var p1 := Pool(p.ledger, p.leases[i := x.(remaining := x.remaining - cost, spent := x.spent + cost)],
                   p.past.(spend := p.past.spend + cost));
    DebitIsSpendAndRenew(p, i, cost, p1);
    if x.remaining - cost <= 0 {
      RenewAbides(p1, c.(spend := c.spend + cost, held := c.held[i := c.held[i] - cost]), size, i);
    }
  }

  lemma DebitIsSpendAndRenew(p: Pool, i: nat, cost: int, p1: Pool)
    requires i < |p.leases|
    requires var x := p.leases[i];
             p1 == Pool(p.ledger, p.leases[i := x.(remaining := x.remaining - cost, spent := x.spent + cost)],
                        p.past.(spend := p.past.spend + cost))
    ensures StepDebit(p, i, cost) == if p.leases[i].remaining - cost <= 0 then StepRenew(p1, i, 0.0) else p1
  {
    var x' := Renew(p.ledger, p1.leases[i], 0.0).1;
    assert p1.leases[i := x'] == p.leases[i := x'];
  }

  lemma ReleaseAbides(p: Pool, c: Calm, size: int, i: nat)
    requires Abides(p, c, size) && i < |p.leases|
    ensures Abides(StepRelease(p, i), CalmStep(c, ReleaseOp(i), size), size)
  {
    var p', c' := StepRelease(p, i), CalmStep(c, ReleaseOp(i), size);
    forall j {:trigger p'.leases[j]} | 0 <= j < |p'.leases|
      ensures p'.leases[j].remaining == c'.held[j] && (c'.open[j] <==> p'.leases[j].token in p'.ledger.outstanding)
    {
      assert p.leases[j].remaining == c.held[j];
    }
  }

  lemma StepAbides(p: Pool, c: Calm, size: int, op: Op)
    requires Abides(p, c, size) && (op.RenewOp? || op.ReclaimOp? ==> op.now == 0.0)
    ensures Abides(Step(p, op), CalmStep(c, op, size), size)
  {
    match op
    case RenewOp(i, _) => if i < |p.leases| { RenewAbides(p, c, size, i); }
    case DebitOp(i, cost) => if i < |p.leases| { DebitAbides(p, c, size, i, cost); }
    case ReleaseOp(i) => if i < |p.leases| { ReleaseAbides(p, c, size, i); }
    case ReclaimOp(_) => AllLive(p.ledger, 0.0);
  }

  function CalmAfter(c: Calm, ops: seq<Op>, size: int): (c': Calm)
    requires ValidCalm(c)
    ensures ValidCalm(c')
  {
    if ops == [] then c else CalmStep(CalmAfter(c, ops[..|ops| - 1], size), ops[|ops| - 1], size)
  }

  /** The operation reads the clock as 0 and debits only what a disciplined holder may. */
  predicate Quiet(c: Calm, op: Op, size: int) {
    && (op.RenewOp? || op.ReclaimOp? ==> op.now == 0.0)
    && (op.DebitOp? && op.i < |c.held| ==> c.held[op.i] > 0 && 0 <= op.cost <= size)
  }

  predicate AllQuiet(c: Calm, ops: seq<Op>, size: int)
    requires ValidCalm(c)
  {
    ops == [] || (
      && AllQuiet(c, ops[..|ops| - 1], size)
      && Quiet(CalmAfter(c, ops[..|ops| - 1], size), ops[|ops| - 1], size))
  }

  lemma {:induction false} QuietRunsAbide(p: Pool, c: Calm, ops: seq<Op>, size: int)
    requires Abides(p, c, size) && AllQuiet(c, ops, size)
    ensures Abides(Run(p, ops), CalmAfter(c, ops, size), size) && Disciplined(p, ops) && TimedWithin(ops, 0.0)
    decreases |ops|
  {
    if ops != [] {
      var init, op := ops[..|ops| - 1], ops[|ops| - 1];
      QuietRunsAbide(p, c, init, size);
      StepAbides(Run(p, init), CalmAfter(c, init, size), size, op);
      assert forall x :: x in ops ==> x in init || x == op;
    }
  }

  /** The calm pool after a quiet run, step by step. */
  predicate Reaches(c: Calm, ops: seq<Op>, size: int, c': Calm) {
    ValidCalm(c) && AllQuiet(c, ops, size) && CalmAfter(c, ops, size) == c'
  }

  lemma Reach(c: Calm, ops: seq<Op>, size: int, c1: Calm, op: Op, c2: Calm)
    requires Reaches(c, ops, size, c1) && Quiet(c1, op, size) && ValidCalm(c1) && CalmStep(c1, op, size) == c2
    ensures Reaches(c, ops + [op], size, c2)
  {
    assert (ops + [op])[..|ops|] == ops;
  }

  // ---- releasing runs: nothing expires, but leases are released ----

  /** Two leases at work, holding r0 and r1, and some idle ones; `left` is what the ledger has left. */
  datatype Pair = Pair(budget: int, left: int, r0: int, r1: int, o0: bool, o1: bool, spend: int)

  function Full(t: Pair, zs: seq<int>, bs: seq<bool>): Calm {
    Calm(t.budget, t.budget - t.left, false, [t.r0, t.r1] + zs, [t.o0, t.o1] + bs, t.spend)
  }

  lemma Debits(t: Pair, zs: seq<int>, bs: seq<bool>, size: int, cost: int)
    requires |zs| == |bs|
    ensures t.r0 > cost ==> CalmStep(Full(t, zs, bs), DebitOp(0, cost), size)
                            == Full(t.(r0 := t.r0 - cost, spend := t.spend + cost), zs, bs)
    ensures t.r1 > cost ==> CalmStep(Full(t, zs, bs), DebitOp(1, cost), size)
                            == Full(t.(r1 := t.r1 - cost, spend := t.spend + cost), zs, bs)
  {
  }

  /** Running dry with 1 left in the ledger. */
  lemma Overdraws(t: Pair, zs: seq<int>, bs: seq<bool>, size: int, cost: int)
    requires |zs| == |bs| && t.left == 1 && size >= 1 && t.r1 <= cost
    ensures CalmStep(Full(t, zs, bs), DebitOp(1, cost), size)
            == Full(t.(left := 0, r1 := t.r1 - cost + 1, o1 := true, spend := t.spend + cost), zs, bs)
  {
  }

  lemma Releases(t: Pair, zs: seq<int>, bs: seq<bool>, size: int)
    requires |zs| == |bs|
    ensures t.o0 ==> CalmStep(Full(t, zs, bs), ReleaseOp(0), size)
                     == Full(t.(left := t.left + Max(0, t.r0), r0 := 0, o0 := false), zs, bs)
    ensures t.o1 ==> CalmStep(Full(t, zs, bs), ReleaseOp(1), size)
                     == Full(t.(left := t.left + Max(0, t.r1), r1 := 0, o1 := false), zs, bs)
  {
  }

  /** Lease 0 takes k slices ahead of need. */
  function Prefetch(ops: seq<Op>, k: nat): seq<Op> {
    if k == 0 then ops else Prefetch(ops, k - 1) + [RenewOp(0, 0.0)]
  }

  /** The pair after slices worth `amount`. */
  function Ahead(t: Pair, amount: int): Pair {
    t.(left := t.left - amount, r0 := t.r0 + amount, o0 := t.o0 || amount > 0)
  }

  lemma {:induction false} PrefetchesOne(c: Calm, ops: seq<Op>, t: Pair, zs: seq<int>, bs: seq<bool>, size: int)
    requires |zs| == |bs| && t.left >= size >= 1 && Reaches(c, ops, size, Full(t, zs, bs))
    ensures Reaches(c, ops + [RenewOp(0, 0.0)], size, Full(Ahead(t, size), zs, bs))
  {
    Reach(c, ops, size, Full(t, zs, bs), RenewOp(0, 0.0), Full(Ahead(t, size), zs, bs));
  }

  lemma {:induction false} Prefetches(c: Calm, ops: seq<Op>, t: Pair, zs: seq<int>, bs: seq<bool>, size: int, k: nat)
    requires |zs| == |bs| && size >= 1 && t.left >= Times(k, size) && Reaches(c, ops, size, Full(t, zs, bs))
    ensures Times(k, size) >= 0
    ensures Reaches(c, Prefetch(ops, k), size, Full(Ahead(t, Times(k, size)), zs, bs))
    decreases k
  {
    if k > 0 {
      var t1 := Ahead(t, Times(k - 1, size));
      Prefetches(c, ops, t, zs, bs, size, k - 1);
      PrefetchesOne(c, Prefetch(ops, k - 1), t1, zs, bs, size);
      assert Ahead(t1, size) == Ahead(t, Times(k, size));
    } else {
      assert Ahead(t, 0) == t;
    }
  }

  /** Lease 1 then meets a ledger with 1 left and overdraws; lease 0 spends a slice but for 1; both are
      released, and what lease 0 hands back is leased again in the next round. */
  function Round(ops: seq<Op>, size: int): seq<Op> {
    ops + [RenewOp(1, 0.0)] + [DebitOp(1, size - 1)] + [DebitOp(1, size)] + [ReleaseOp(1)] + [DebitOp(0, size - 1)] + [ReleaseOp(0)]
  }

  lemma RoundOverdraws(c: Calm, ops: seq<Op>, t: Pair, zs: seq<int>, bs: seq<bool>, size: int)
    requires |zs| == |bs| && size >= 2 && Reaches(c, ops, size, Full(t, zs, bs))
    requires t.left == size + 1 && t.r0 >= size && t.r1 == 0 && t.o0 && !t.o1
    ensures Reaches(c, Round(ops, size), size,
                    Full(t.(left := t.r0 - size + 1, r0 := 0, o0 := false, spend := t.spend + 3 * size - 2), zs, bs))
  {
    var t1 := t.(left := 1, r1 := size, o1 := true);
    var t2 := t1.(r1 := 1, spend := t.spend + size - 1);
    var t3 := t2.(left := 0, r1 := 2 - size, spend := t.spend + 2 * size - 1);
    Reach(c, ops, size, Full(t, zs, bs), RenewOp(1, 0.0), Full(t1, zs, bs));
    Debits(t1, zs, bs, size, size - 1);
    Reach(c, ops + [RenewOp(1, 0.0)], size, Full(t1, zs, bs), DebitOp(1, size - 1), Full(t2, zs, bs));
    Overdraws(t2, zs, bs, size, size);
    Reach(c, ops + [RenewOp(1, 0.0)] + [DebitOp(1, size - 1)], size, Full(t2, zs, bs), DebitOp(1, size), Full(t3, zs, bs));
    RoundEnds(c, ops + [RenewOp(1, 0.0)] + [DebitOp(1, size - 1)] + [DebitOp(1, size)], t3, zs, bs, size);
  }

  lemma RoundEnds(c: Calm, ops: seq<Op>, t: Pair, zs: seq<int>, bs: seq<bool>, size: int)
    requires |zs| == |bs| && size >= 2 && Reaches(c, ops, size, Full(t, zs, bs))
    requires t.left == 0 && t.r0 >= size && t.r1 == 2 - size && t.o0 && t.o1
    ensures Reaches(c, ops + [ReleaseOp(1)] + [DebitOp(0, size - 1)] + [ReleaseOp(0)], size,
                    Full(t.(left := t.r0 - size + 1, r0 := 0, r1 := 0, o0 := false, o1 := false, spend := t.spend + size - 1), zs, bs))
  {
    var t1 := t.(r1 := 0, o1 := false);
    var t2 := t1.(r0 := t.r0 - size + 1, spend := t.spend + size - 1);
    Releases(t, zs, bs, size);
    Reach(c, ops, size, Full(t, zs, bs), ReleaseOp(1), Full(t1, zs, bs));
    Debits(t1, zs, bs, size, size - 1);
    Reach(c, ops + [ReleaseOp(1)], size, Full(t1, zs, bs), DebitOp(0, size - 1), Full(t2, zs, bs));
    Releases(t2, zs, bs, size);
    Reach(c, ops + [ReleaseOp(1)] + [DebitOp(0, size - 1)], size, Full(t2, zs, bs), ReleaseOp(0),
          Full(t2.(left := t2.r0, r0 := 0, o0 := false), zs, bs));
  }

  function ReleasingBudget(m: nat, size: int): int { Times(m, 2 * size) + 1 }

  /** The last m rounds: in each, lease 0 takes all but one slice of what the ledger has left. */
  function Rounds(ops: seq<Op>, m: nat, size: int): seq<Op>
    decreases m
  {
    if m == 0 then ops else Rounds(Round(Prefetch(ops, 2 * m - 1), size), m - 1, size)
  }

  function ReleasingRun(m: nat, size: int): seq<Op> { Rounds([], m, size) }

  function BetweenRounds(budget: int, j: nat, size: int, spend: int): Pair {
    Pair(budget, Times(j, 2 * size) + 1, 0, 0, false, false, spend)
  }

  lemma {:induction false} RoundsReach(c: Calm, ops: seq<Op>, m: nat, budget: int, spend: int, zs: seq<int>, bs: seq<bool>, size: int)
    requires |zs| == |bs| && size >= 2 && Reaches(c, ops, size, Full(BetweenRounds(budget, m, size, spend), zs, bs))
    ensures Reaches(c, Rounds(ops, m, size), size, Full(BetweenRounds(budget, 0, size, spend + Times(m, 3 * size - 2)), zs, bs))
    decreases m
  {
    if m > 0 {
      OneRound(c, ops, budget, m - 1, spend, zs, bs, size);
      RoundsReach(c, Round(Prefetch(ops, 2 * m - 1), size), m - 1, budget, spend + 3 * size - 2, zs, bs, size);
    }
  }

  lemma OneRound(c: Calm, ops: seq<Op>, budget: int, j: nat, spend: int, zs: seq<int>, bs: seq<bool>, size: int)
    requires |zs| == |bs| && size >= 2 && Reaches(c, ops, size, Full(BetweenRounds(budget, j + 1, size, spend), zs, bs))
    ensures Reaches(c, Round(Prefetch(ops, 2 * j + 1), size), size,
                    Full(BetweenRounds(budget, j, size, spend + 3 * size - 2), zs, bs))
  {
    var t, k := BetweenRounds(budget, j + 1, size, spend), 2 * j + 1;
    SliceCount(j, size);
    Prefetches(c, ops, t, zs, bs, size, k);
    RoundOverdraws(c, Prefetch(ops, k), Ahead(t, Times(k, size)), zs, bs, size);
  }

  lemma {:induction false} SliceCount(j: nat, size: int)
    requires size >= 1
    ensures Times(2 * j + 1, size) == Times(j, 2 * size) + size >= size
    ensures Times(j + 1, 2 * size) == Times(2 * j + 1, size) + size
  {
    if j > 0 {
      SliceCount(j - 1, size);
      assert Times(2 * j + 1, size) == Times(2 * j, size) + size;
      assert Times(2 * j, size) == Times(2 * j - 1, size) + size;
    } else {
      assert Times(1, size) == Times(0, size) + size;
    }
  }

  lemma FreshAbides(budget: int, n: nat, size: int)
    requires n >= 2
    ensures var c := Full(Pair(budget, budget, 0, 0, false, false, 0), seq(n - 2, i => 0), seq(n - 2, i => false));
            Abides(Fresh(budget, Same(n, size)), c, size)
  {
  }

  /** Releases alone overshoot without limit: two leases of size 3 or more, m rounds at time 0. */
  lemma ReleasesOverspend(m: nat, n: nat, size: int)
    requires n >= 2 && size >= 3
    ensures Permitted(ReleasingBudget(m, size), Same(n, size), size, ReleasingRun(m, size), 0.0)
    ensures Run(Fresh(ReleasingBudget(m, size), Same(n, size)), ReleasingRun(m, size)).past.spend
            == ReleasingBudget(m, size) + m * (size - 2) - 1
  {
    var budget, zs, bs := ReleasingBudget(m, size), seq(n - 2, i => 0), seq(n - 2, i => false);
    var c := Full(BetweenRounds(budget, m, size, 0), zs, bs);
    FreshAbides(budget, n, size);
    RoundsReach(c, [], m, budget, 0, zs, bs, size);
    QuietRunsAbide(Fresh(budget, Same(n, size)), c, ReleasingRun(m, size), size);
    RoundSpend(m, size);
    TimesIs(m, size - 2);
  }

  lemma {:induction false} RoundSpend(m: nat, size: int)
    requires size >= 1
    ensures Times(m, 3 * size - 2) == Times(m, 2 * size) + Times(m, size - 2) && Times(m, 2 * size) >= 0
  {
    if m > 0 {
      RoundSpend(m - 1, size);
    }
  }

  lemma RoundsPile(m: nat, size: int)
    requires size >= 3
    ensures m * (size - 2) >= m
  {
    assert m * (size - 3) >= 0;
    assert m * (size - 2) == m * (size - 3) + m;
  }
}
