/** Budget leasing: a ledger hands out slices of a run budget with a time to live and a fencing
    token; holders spend them locally and settle at the end. Effects on values, and the laws that
    any mix of them obeys. */
module BudgetLease {
  import opened Numbers

  datatype Grant = Grant(amount: int, token: int, expiresAt: real)

  datatype LedgerState = LedgerState(
    budget: int, granted: int, settled: int, halted: bool, nextToken: int, outstanding: map<int, Grant>)

  datatype LeaseState = LeaseState(size: int, remaining: int, spent: int, halted: bool, token: int)

  /** The time to live of every grant a lease asks for, in seconds. */
  const TTL := 300.0

  function FreshLedger(budget: int): LedgerState { LedgerState(budget, 0, 0, false, 1, map[]) }

  function FreshLease(size: int): LeaseState { LeaseState(size, 0, 0, false, 0) }

  /** The amounts of the grants whose token is below n. */
  function AmountBelow(m: map<int, Grant>, n: int): int {
    if n <= 0 then 0 else AmountBelow(m, n - 1) + (if n - 1 in m then m[n - 1].amount else 0)
  }

  function Live(l: LedgerState, now: real): map<int, Grant> {
    map t | t in l.outstanding && now < l.outstanding[t].expiresAt :: l.outstanding[t]
  }

  function ReclaimableAt(l: LedgerState, now: real): int {
    AmountBelow(l.outstanding, l.nextToken) - AmountBelow(Live(l, now), l.nextToken)
  }

  /** reclaim_expired: the amounts of expired grants go back to the pool. */
  function Reclaim(l: LedgerState, now: real): LedgerState {
    l.(granted := l.granted - ReclaimableAt(l, now), outstanding := Live(l, now))
  }

  /** grant: reclaims, then hands out what is available, up to the size asked for. Finding nothing
      available halts the ledger for good; None stands for the LedgerFull exception. */
  function Issue(l0: LedgerState, size: int, now: real, ttl: real): (LedgerState, Option<Grant>) {
    var l := Reclaim(l0, now);
    if l.halted then (l, None)
    else if l.budget <= l.granted then (l.(halted := true), None)
    else
      var g := Grant(Min(size, l.budget - l.granted), l.nextToken, now + ttl);
      (l.(granted := l.granted + g.amount, nextToken := l.nextToken + 1, outstanding := l.outstanding[g.token := g]),
       Some(g))
  }

  /** settle: closes an outstanding token; a token that is not outstanding is stale. */
  function Settle(l: LedgerState, token: int, spent: int, unused: int): (LedgerState, bool) {
    if token !in l.outstanding then (l, false)
    else
      (l.(settled := l.settled + spent, granted := l.granted - unused, outstanding := l.outstanding - {token}), true)
  }

  function Renew(l: LedgerState, x: LeaseState, now: real): (LedgerState, LeaseState) {
    var (l', g) := Issue(l, x.size, now, TTL);
    (l', if g.None? then x.(halted := true)
         else x.(remaining := x.remaining + g.value.amount, token := g.value.token))
  }

  /** debit: local spending, overdraft allowed; running dry renews, with the clock read as 0. */
  function Debit(l: LedgerState, x: LeaseState, cost: int): (LedgerState, LeaseState) {
    var x' := x.(remaining := x.remaining - cost, spent := x.spent + cost);
    if x'.remaining <= 0 then Renew(l, x', 0.0) else (l, x')
  }

  function Release(l: LedgerState, x: LeaseState): (LedgerState, LeaseState, bool) {
    var (l', ok) := Settle(l, x.token, x.spent, Max(0, x.remaining));
    (l', x.(remaining := 0, spent := 0), ok)
  }

  /** can_afford. */
  predicate CanAfford(x: LeaseState, cost: int) { !x.halted && cost <= x.remaining }

  /** needs_renewal: the lease is to be renewed ahead of need. */
  predicate NeedsRenewal(x: LeaseState, renewAt: real) {
    !x.halted && x.remaining as real < x.size as real * renewAt
  }

  // ---- runs: one ledger, any number of leases ----

  /** A settled token: what it had been granted and what was handed back. */
  datatype Closing = Closing(token: int, amount: int, unused: int)

  /** What happened so far: true spend, amounts received by leases, amounts reclaimed, the settled
      tokens, the remainder of every lease epoch that has ended with a release, the tokens issued, in
      order, those reclaimed, and the spending of epochs whose release was refused. */
  datatype Past = Past(
    spend: int, received: int, reclaimed: int, closings: seq<Closing>, ended: seq<int>,
    issued: seq<int>, expired: set<int>, refused: int)

  datatype Pool = Pool(ledger: LedgerState, leases: seq<LeaseState>, past: Past)

  datatype Op = RenewOp(i: nat, now: real) | DebitOp(i: nat, cost: int) | ReleaseOp(i: nat) | ReclaimOp(now: real)

  function Fresh(budget: int, sizes: seq<int>): Pool {
    Pool(FreshLedger(budget), seq(|sizes|, i requires 0 <= i < |sizes| => FreshLease(sizes[i])), Past(0, 0, 0, [], [], [], {}, 0))
  }

  function Received(l: LedgerState, size: int, now: real): int {
    var g := Issue(l, size, now, TTL).1;
    if g.Some? then g.value.amount else 0
  }

  function IssuedTokens(l: LedgerState, size: int, now: real): seq<int> {
    var g := Issue(l, size, now, TTL).1;
    if g.Some? then [g.value.token] else []
  }

  function ExpiredTokens(l: LedgerState, now: real): set<int> {
    set t | t in l.outstanding && l.outstanding[t].expiresAt <= now
  }

  /** What an attempt to renew adds to the past. */
  function Renewed(past: Past, l: LedgerState, size: int, now: real): Past {
    past.(received := past.received + Received(l, size, now), reclaimed := past.reclaimed + ReclaimableAt(l, now),
          issued := past.issued + IssuedTokens(l, size, now), expired := past.expired + ExpiredTokens(l, now))
  }

  function StepRenew(p: Pool, i: nat, now: real): Pool
    requires i < |p.leases|
  {
    var (l, x) := Renew(p.ledger, p.leases[i], now);
    Pool(l, p.leases[i := x], Renewed(p.past, p.ledger, p.leases[i].size, now))
  }

  function StepDebit(p: Pool, i: nat, cost: int): Pool
    requires i < |p.leases|
  {
    var x, past := p.leases[i], p.past.(spend := p.past.spend + cost);
    var (l', x') := Debit(p.ledger, x, cost);
    Pool(l', p.leases[i := x'], if x.remaining - cost <= 0 then Renewed(past, p.ledger, x.size, 0.0) else past)
  }

  function StepRelease(p: Pool, i: nat): Pool
    requires i < |p.leases|
  {
    var x := p.leases[i];
    var (l', x', ok) := Release(p.ledger, x);
    var closing := if ok then [Closing(x.token, p.ledger.outstanding[x.token].amount, Max(0, x.remaining))] else [];
    Pool(l', p.leases[i := x'],
         p.past.(closings := p.past.closings + closing, ended := p.past.ended + [x.remaining],
                 refused := p.past.refused + (if ok then 0 else x.spent)))
  }

  function Step(p: Pool, op: Op): Pool {
    match op
    case RenewOp(i, now) => if i < |p.leases| then StepRenew(p, i, now) else p
    case DebitOp(i, cost) => if i < |p.leases| then StepDebit(p, i, cost) else p
    case ReleaseOp(i) => if i < |p.leases| then StepRelease(p, i) else p
    case ReclaimOp(now) =>
      p.(ledger := Reclaim(p.ledger, now),
         past := p.past.(reclaimed := p.past.reclaimed + ReclaimableAt(p.ledger, now),
                         expired := p.past.expired + ExpiredTokens(p.ledger, now)))
  }

  function Run(p: Pool, ops: seq<Op>): Pool {
    if ops == [] then p else Step(Run(p, ops[..|ops| - 1]), ops[|ops| - 1])
  }

  // ---- sums ----

  function Total(xs: seq<int>): int {
    if xs == [] then 0 else Total(xs[..|xs| - 1]) + xs[|xs| - 1]
  }

  /** How far below zero the entries go, in all. */
  function Shortfall(xs: seq<int>): nat {
    if xs == [] then 0 else Shortfall(xs[..|xs| - 1]) + Max(0, -xs[|xs| - 1])
  }

  function Held(leases: seq<LeaseState>): (r: seq<int>)
    ensures |r| == |leases|
  {
    seq(|leases|, i requires 0 <= i < |leases| => leases[i].remaining)
  }

  function Unused(closings: seq<Closing>): int {
    if closings == [] then 0 else Unused(closings[..|closings| - 1]) + closings[|closings| - 1].unused
  }

  function Kept(closings: seq<Closing>): int {
    if closings == [] then 0
    else
      var c := closings[|closings| - 1];
      Kept(closings[..|closings| - 1]) + c.amount - c.unused
  }

  lemma {:induction false} TotalUpdate(xs: seq<int>, i: nat, v: int)
    requires i < |xs|
    ensures Total(xs[i := v]) == Total(xs) - xs[i] + v
    decreases |xs|
  {
    var init := xs[..|xs| - 1];
    if i < |init| {
      TotalUpdate(init, i, v);
      assert xs[i := v][..|xs| - 1] == init[i := v];
    } else {
      assert xs[i := v][..|xs| - 1] == init;
    }
  }

  lemma {:induction false} AmountInsert(m: map<int, Grant>, g: Grant, n: int)
    requires g.token !in m
    ensures AmountBelow(m[g.token := g], n) == AmountBelow(m, n) + (if 0 <= g.token < n then g.amount else 0)
    decreases n
  {
    if n > 0 {
      AmountInsert(m, g, n - 1);
    }
  }

  lemma {:induction false} AmountRemove(m: map<int, Grant>, t: int, n: int)
    requires t in m
    ensures AmountBelow(m - {t}, n) == AmountBelow(m, n) - (if 0 <= t < n then m[t].amount else 0)
    decreases n
  {
    if n > 0 {
      AmountRemove(m, t, n - 1);
    }
  }

  // ---- fencing and the ledger's own books ----

  ghost predicate LedgerSound(l: LedgerState, closings: seq<Closing>) {
    && l.nextToken >= 1
    && (forall t :: t in l.outstanding ==> 1 <= t < l.nextToken && l.outstanding[t].token == t && l.outstanding[t].amount >= 0)
    && l.granted <= l.budget
    && (forall c :: c in closings ==> 1 <= c.token < l.nextToken && c.token !in l.outstanding)
    && (forall i, j :: 0 <= i < j < |closings| ==> closings[i].token != closings[j].token)
    && l.granted == AmountBelow(l.outstanding, l.nextToken) + Kept(closings)
  }

  lemma {:induction false} LiveIsLess(m: map<int, Grant>, live: map<int, Grant>, n: int)
    requires forall t :: t in m ==> m[t].amount >= 0
    requires forall t :: t in live ==> t in m && live[t] == m[t]
    ensures AmountBelow(live, n) <= AmountBelow(m, n)
    decreases n
  {
    if n > 0 {
      LiveIsLess(m, live, n - 1);
    }
  }

  lemma IssueKeepsSound(l: LedgerState, closings: seq<Closing>, size: int, now: real, ttl: real)
    requires LedgerSound(l, closings) && size >= 0
    ensures LedgerSound(Reclaim(l, now), closings)
    ensures LedgerSound(Issue(l, size, now, ttl).0, closings)
  {
    var r := Reclaim(l, now);
    LiveIsLess(l.outstanding, Live(l, now), l.nextToken);
    assert LedgerSound(r, closings);
    var (l', g) := Issue(l, size, now, ttl);
    if g.Some? {
      AmountInsert(r.outstanding, g.value, r.nextToken + 1);
      AmountInsert(r.outstanding, g.value, r.nextToken);
    }
  }

  lemma SettleKeepsSound(l: LedgerState, closings: seq<Closing>, token: int, spent: int, unused: int)
    requires LedgerSound(l, closings) && token in l.outstanding && unused >= 0
    ensures LedgerSound(Settle(l, token, spent, unused).0, closings + [Closing(token, l.outstanding[token].amount, unused)])
  {
    AmountRemove(l.outstanding, token, l.nextToken);
    var c := Closing(token, l.outstanding[token].amount, unused);
    assert (closings + [c])[..|closings|] == closings;
  }

  // ---- the money law ----

  /** Received money is spent, still held, or was left when an epoch ended; granted money was
      received and neither reclaimed nor handed back; only what was left is handed back. */
  ghost predicate Sound(p: Pool) {
    && LedgerSound(p.ledger, p.past.closings)
    && (forall i :: 0 <= i < |p.leases| ==> p.leases[i].size >= 0)
    && p.past.received == p.past.spend + Total(Held(p.leases)) + Total(p.past.ended)
    && p.ledger.granted == p.past.received - p.past.reclaimed - Unused(p.past.closings)
    && Unused(p.past.closings) <= Total(p.past.ended) + Shortfall(p.past.ended)
  }

  lemma HeldUpdate(leases: seq<LeaseState>, i: nat, x: LeaseState)
    requires i < |leases|
    ensures Total(Held(leases[i := x])) == Total(Held(leases)) - leases[i].remaining + x.remaining
  {
    TotalUpdate(Held(leases), i, x.remaining);
    assert Held(leases[i := x]) == Held(leases)[i := x.remaining];
  }

  lemma RenewKeepsSound(p: Pool, i: nat, now: real)
    requires Sound(p) && i < |p.leases|
    ensures Sound(StepRenew(p, i, now))
  {
    var p' := StepRenew(p, i, now);
    IssueKeepsSound(p.ledger, p.past.closings, p.leases[i].size, now, TTL);
    HeldUpdate(p.leases, i, p'.leases[i]);
  }

  lemma DebitKeepsSound(p: Pool, i: nat, cost: int)
    requires Sound(p) && i < |p.leases|
    ensures Sound(StepDebit(p, i, cost))
  {
    var p' := StepDebit(p, i, cost);
    IssueKeepsSound(p.ledger, p.past.closings, p.leases[i].size, 0.0, TTL);
    HeldUpdate(p.leases, i, p'.leases[i]);
  }

  lemma {:induction false} AcceptedReleaseKeepsSound(l: LedgerState, closings: seq<Closing>, x: LeaseState)
    requires LedgerSound(l, closings) && x.token in l.outstanding
    ensures var c := Closing(x.token, l.outstanding[x.token].amount, Max(0, x.remaining));
            var l' := Release(l, x).0;
            && LedgerSound(l', closings + [c]) && l'.granted == l.granted - Max(0, x.remaining)
            && Unused(closings + [c]) == Unused(closings) + Max(0, x.remaining)
  {
    var c := Closing(x.token, l.outstanding[x.token].amount, Max(0, x.remaining));
    SettleKeepsSound(l, closings, x.token, x.spent, Max(0, x.remaining));
    assert (closings + [c])[..|closings|] == closings;
  }

  lemma {:induction false} EndedSnoc(ended: seq<int>, r: int)
    ensures Total(ended + [r]) == Total(ended) + r && Shortfall(ended + [r]) == Shortfall(ended) + Max(0, -r)
  {
    assert (ended + [r])[..|ended|] == ended;
  }

  lemma {:induction false} ReleaseKeepsSound(p: Pool, i: nat)
    requires Sound(p) && i < |p.leases|
    ensures Sound(StepRelease(p, i))
  {
    var x := p.leases[i];
    if x.token in p.ledger.outstanding {
      AcceptedReleaseKeepsSound(p.ledger, p.past.closings, x);
    } else {
      assert p.past.closings + [] == p.past.closings;
    }
    HeldUpdate(p.leases, i, StepRelease(p, i).leases[i]);
    EndedSnoc(p.past.ended, x.remaining);
  }

  lemma StepKeepsSound(p: Pool, op: Op)
    requires Sound(p)
    ensures Sound(Step(p, op))
  {
    match op
    case RenewOp(i, now) => if i < |p.leases| { RenewKeepsSound(p, i, now); }
    case DebitOp(i, cost) => if i < |p.leases| { DebitKeepsSound(p, i, cost); }
    case ReleaseOp(i) => if i < |p.leases| { ReleaseKeepsSound(p, i); }
    case ReclaimOp(now) => IssueKeepsSound(p.ledger, p.past.closings, 0, now, TTL);
  }

  lemma {:induction false} FreshTotals(xs: seq<int>)
    requires forall i :: 0 <= i < |xs| ==> xs[i] == 0
    ensures Total(xs) == 0
    decreases |xs|
  {
    if xs != [] {
      FreshTotals(xs[..|xs| - 1]);
    }
  }

  lemma {:induction false} RunsAreSound(budget: int, sizes: seq<int>, ops: seq<Op>)
    requires budget >= 0 && forall i :: 0 <= i < |sizes| ==> sizes[i] >= 0
    ensures Sound(Run(Fresh(budget, sizes), ops))
    decreases |ops|
  {
    var p := Fresh(budget, sizes);
    if ops == [] {
      FreshTotals(Held(p.leases));
    } else {
      RunsAreSound(budget, sizes, ops[..|ops| - 1]);
      StepKeepsSound(Run(p, ops[..|ops| - 1]), ops[|ops| - 1]);
    }
  }

  lemma {:induction false} TotalAboveShortfall(xs: seq<int>)
    ensures Total(xs) + Shortfall(xs) >= 0
    decreases |xs|
  {
    if xs != [] {
      TotalAboveShortfall(xs[..|xs| - 1]);
    }
  }

  /** The money law: what was truly spent exceeds the budget by at most what was reclaimed from
      expired grants plus the overdrafts of all lease epochs, ended or current. */
  lemma SpendingLaw(budget: int, sizes: seq<int>, ops: seq<Op>)
    requires budget >= 0 && forall i :: 0 <= i < |sizes| ==> sizes[i] >= 0
    ensures var p := Run(Fresh(budget, sizes), ops);
            p.past.spend <= budget + p.past.reclaimed + Shortfall(p.past.ended) + Shortfall(Held(p.leases))
  {
    RunsAreSound(budget, sizes, ops);
    BudgetIsFixed(Fresh(budget, sizes), ops);
    TotalAboveShortfall(Held(Run(Fresh(budget, sizes), ops).leases));
  }

  /** Where every micro went: what was spent is what the ledger counts as granted, plus what it took
      back, by expiry and by release, less what leases still hold or held when released. */
  lemma SpendingIsAccountedFor(budget: int, sizes: seq<int>, ops: seq<Op>)
    requires budget >= 0 && forall i :: 0 <= i < |sizes| ==> sizes[i] >= 0
    ensures var p := Run(Fresh(budget, sizes), ops);
            p.past.spend == p.ledger.granted + p.past.reclaimed + Unused(p.past.closings)
                            - Total(Held(p.leases)) - Total(p.past.ended)
  {
    RunsAreSound(budget, sizes, ops);
  }

  lemma {:induction false} BudgetIsFixed(p: Pool, ops: seq<Op>)
    ensures Run(p, ops).ledger.budget == p.ledger.budget && |Run(p, ops).leases| == |p.leases|
    ensures forall i :: 0 <= i < |p.leases| ==> Run(p, ops).leases[i].size == p.leases[i].size
    decreases |ops|
  {
    if ops != [] {
      BudgetIsFixed(p, ops[..|ops| - 1]);
    }
  }

  /** Debits made only while something remains, each costing at most the lease size. */
  predicate Disciplined(p: Pool, ops: seq<Op>) {
    ops == [] || (
      && Disciplined(p, ops[..|ops| - 1])
      && var op, leases := ops[|ops| - 1], Run(p, ops[..|ops| - 1]).leases;
         (op.DebitOp? && op.i < |leases| ==> leases[op.i].remaining > 0 && 0 <= op.cost <= leases[op.i].size))
  }

  lemma {:induction false} ShortfallBound(xs: seq<int>, k: nat)
    requires forall i :: 0 <= i < |xs| ==> xs[i] + k >= 0
    ensures Shortfall(xs) <= |xs| * k
    decreases |xs|
  {
    if xs != [] {
      ShortfallBound(xs[..|xs| - 1], k);
      assert |xs| * k == (|xs| - 1) * k + k;
    }
  }

  /** No lease holds less than 1 - size, nor did any epoch end with less. */
  ghost predicate Shallow(p: Pool, size: int) {
    && (forall i {:trigger p.leases[i]} :: 0 <= i < |p.leases| ==>
          p.leases[i].remaining >= 1 - size && 0 <= p.leases[i].size <= size)
    && (forall i :: 0 <= i < |p.past.ended| ==> p.past.ended[i] >= 1 - size)
  }

  lemma StepKeepsShallow(p: Pool, op: Op, size: int)
    requires size >= 1 && Shallow(p, size)
    requires op.DebitOp? && op.i < |p.leases| ==> p.leases[op.i].remaining > 0 && 0 <= op.cost <= p.leases[op.i].size
    ensures Shallow(Step(p, op), size)
  {
    match op
    case RenewOp(i, now) => if i < |p.leases| { RenewOnlyAdds(p.ledger, p.leases[i], now); }
    case DebitOp(i, cost) => if i < |p.leases| { DebitOverdraft(p.ledger, p.leases[i], cost); }
    case ReleaseOp(_) =>
    case ReclaimOp(_) =>
  }

  lemma {:induction false} DisciplinedRunsAreShallow(budget: int, sizes: seq<int>, size: int, ops: seq<Op>)
    requires size >= 1 && (forall i :: 0 <= i < |sizes| ==> 0 <= sizes[i] <= size)
    requires Disciplined(Fresh(budget, sizes), ops)
    ensures Shallow(Run(Fresh(budget, sizes), ops), size)
    decreases |ops|
  {
    if ops != [] {
      DisciplinedRunsAreShallow(budget, sizes, size, ops[..|ops| - 1]);
      StepKeepsShallow(Run(Fresh(budget, sizes), ops[..|ops| - 1]), ops[|ops| - 1], size);
    }
  }

  lemma RenewOnlyAdds(l: LedgerState, x: LeaseState, now: real)
    requires x.size >= 0
    ensures x.remaining <= Renew(l, x, now).1.remaining <= x.remaining + x.size
    ensures Renew(l, x, now).1.size == x.size
  {
  }

  lemma DebitOverdraft(l: LedgerState, x: LeaseState, cost: int)
    requires x.remaining > 0 && 0 <= cost <= x.size
    ensures Debit(l, x, cost).1.remaining >= 1 - x.size && Debit(l, x, cost).1.size == x.size
  {
    RenewOnlyAdds(l, x.(remaining := x.remaining - cost, spent := x.spent + cost), 0.0);
  }

  /** The lease epochs so far: those ended by a release, and the current one of each lease. */
  function Epochs(p: Pool): nat { |p.past.ended| + |p.leases| }

  /** The overshoot bound. With disciplined debits and nothing reclaimed, true spending exceeds
      the budget by at most size - 1 for every lease epoch, ended or current. */
  lemma {:induction false} OvershootBound(budget: int, sizes: seq<int>, size: int, ops: seq<Op>)
    requires size >= 1 && (forall i :: 0 <= i < |sizes| ==> 0 <= sizes[i] <= size) && budget >= 0
    requires Disciplined(Fresh(budget, sizes), ops)
    requires Run(Fresh(budget, sizes), ops).past.reclaimed == 0
    ensures var p := Run(Fresh(budget, sizes), ops);
            p.past.spend <= budget + Epochs(p) * (size - 1) && Epochs(p) == |p.past.ended| + |sizes|
  {
    var p := Run(Fresh(budget, sizes), ops);
    SpendingLaw(budget, sizes, ops);
    DisciplinedRunsAreShallow(budget, sizes, size, ops);
    BudgetIsFixed(Fresh(budget, sizes), ops);
    ShallowShortfall(p, size);
  }

  lemma ShallowShortfall(p: Pool, size: int)
    requires size >= 1 && Shallow(p, size)
    ensures Shortfall(p.past.ended) + Shortfall(Held(p.leases)) <= Epochs(p) * (size - 1)
  {
    ShortfallBound(p.past.ended, size - 1);
    ShortfallBound(Held(p.leases), size - 1);
    Distribute(|p.past.ended|, |p.leases|, size - 1);
  }

  lemma Distribute(a: nat, b: nat, k: nat)
    ensures (a + b) * k == a * k + b * k
  {
  }

  /** The ledger's books over any run: never more than the budget is granted out; what is granted
      is what is outstanding plus what settled tokens kept; each token is settled at most once. */
  lemma BooksBalance(budget: int, sizes: seq<int>, ops: seq<Op>)
    requires budget >= 0 && forall i :: 0 <= i < |sizes| ==> sizes[i] >= 0
    ensures var p := Run(Fresh(budget, sizes), ops);
            && p.ledger.granted <= budget
            && p.ledger.granted == AmountBelow(p.ledger.outstanding, p.ledger.nextToken) + Kept(p.past.closings)
            && (forall i, j :: 0 <= i < j < |p.past.closings| ==> p.past.closings[i].token != p.past.closings[j].token)
  {
    RunsAreSound(budget, sizes, ops);
    BudgetIsFixed(Fresh(budget, sizes), ops);
  }

  /** Fencing: a token that was issued and is no longer outstanding never is again, and settling it
      is refused and changes nothing, in every later state. */
  lemma {:induction false} StaleTokensStayStale(p: Pool, ops: seq<Op>, t: int)
    requires t < p.ledger.nextToken && t !in p.ledger.outstanding
    ensures var l := Run(p, ops).ledger;
            && t < p.ledger.nextToken <= l.nextToken && t !in l.outstanding
            && forall spent, unused :: Settle(l, t, spent, unused) == (l, false)
    decreases |ops|
  {
    if ops != [] {
      StaleTokensStayStale(p, ops[..|ops| - 1], t);
    }
  }

  /** Once the ledger halts it stays halted, no token is issued, and no lease gains budget. */
  lemma {:induction false} HaltIsFinal(p: Pool, ops: seq<Op>, i: nat)
    requires p.ledger.halted && i < |p.leases|
    requires forall op :: op in ops && op.DebitOp? ==> op.cost >= 0
    ensures var q := Run(p, ops);
            && q.ledger.halted && q.ledger.nextToken == p.ledger.nextToken && |q.leases| == |p.leases|
            && Max(0, q.leases[i].remaining) <= Max(0, p.leases[i].remaining)
    decreases |ops|
  {
    if ops != [] {
      HaltIsFinal(p, ops[..|ops| - 1], i);
      assert ops[|ops| - 1] in ops;
    }
  }

  /** All grants so far but the last were full slices of the one common size. */
  ghost predicate FullSlices(l: LedgerState, size: int) {
    && l.nextToken >= 1 && l.budget >= 0
    && l.granted == Min(l.budget, (l.nextToken - 1) * size)
    && (l.nextToken > 1 ==> (l.nextToken - 2) * size < l.budget)
  }

  lemma IssueKeepsFullSlices(l: LedgerState, size: int, now: real)
    requires size > 0 && FullSlices(l, size) && Live(l, now) == l.outstanding
    ensures FullSlices(Issue(l, size, now, TTL).0, size)
  {
    var n := l.nextToken - 1;
    assert (n + 1) * size == n * size + size;
    if l.budget > l.granted {
      assert l.granted == n * size;
    }
  }

  /** Round trips are bounded: with one common size, no release and nothing reclaimed, at most
      ceil(budget / size) grants succeed. */
  lemma {:induction false} GrantsAreFew(budget: int, sizes: seq<int>, size: int, ops: seq<Op>)
    requires size > 0 && budget >= 0 && forall i :: 0 <= i < |sizes| ==> sizes[i] == size
    requires forall op :: op in ops ==> op.RenewOp? || op.DebitOp?
    requires NothingReclaimed(Fresh(budget, sizes), ops)
    ensures FullSlices(Run(Fresh(budget, sizes), ops).ledger, size)
    ensures Run(Fresh(budget, sizes), ops).ledger.nextToken - 1 <= (budget + size - 1) / size
    decreases |ops|
  {
    var p := Fresh(budget, sizes);
    if ops != [] {
      var init, op := ops[..|ops| - 1], ops[|ops| - 1];
      GrantsAreFew(budget, sizes, size, init);
      BudgetIsFixed(p, init);
      assert op in ops;
      IssueKeepsFullSlices(Run(p, init).ledger, size, if op.RenewOp? then op.now else 0.0);
    }
    BudgetIsFixed(p, ops);
    CeilBound(Run(p, ops).ledger.nextToken - 1, size, budget);
  }

  lemma CeilBound(n: int, size: int, budget: int)
    requires size > 0 && budget >= 0 && n >= 0 && (n > 0 ==> (n - 1) * size < budget)
    ensures n <= (budget + size - 1) / size
  {
    var c := (budget + size - 1) / size;
    assert c * size >= budget;
    if n > c {
      MulAtLeast(n - 1, c, size);
    }
  }

  lemma MulAtLeast(a: int, b: int, k: int)
    requires a >= b && k >= 0
    ensures a * k >= b * k
  {
    assert (a - b) * k >= 0;
  }

  /** No step of the run finds an expired grant. */
  predicate NothingReclaimed(p: Pool, ops: seq<Op>) {
    ops == [] || (
      && NothingReclaimed(p, ops[..|ops| - 1])
      && var q, op := Run(p, ops[..|ops| - 1]), ops[|ops| - 1];
         Live(q.ledger, if op.RenewOp? || op.ReclaimOp? then op.now else 0.0) == q.ledger.outstanding)
  }

  // ---- steps of concrete runs ----

  lemma RunSnoc(p: Pool, ops: seq<Op>, op: Op)
    ensures Run(p, ops + [op]) == Step(Run(p, ops), op)
    ensures Disciplined(p, ops + [op]) <==>
            && Disciplined(p, ops)
            && (op.DebitOp? && op.i < |Run(p, ops).leases| ==>
                  Run(p, ops).leases[op.i].remaining > 0 && 0 <= op.cost <= Run(p, ops).leases[op.i].size)
  {
    assert (ops + [op])[..|ops|] == ops;
  }

  lemma {:induction false} NoneBelow(n: int)
    ensures AmountBelow(map[], n) == 0
    decreases n
  {
    if n > 0 {
      NoneBelow(n - 1);
    }
  }

  lemma {:induction false} OneBelow(t: int, size: int, n: int)
    ensures forall at :: AmountBelow(map[t := Grant(size, t, at)], n) == (if 0 <= t < n then size else 0)
  {
    forall at
      ensures AmountBelow(map[t := Grant(size, t, at)], n) == (if 0 <= t < n then size else 0)
    {
      NoneBelow(n);
      AmountInsert(map[], Grant(size, t, at), n);
      assert map[][t := Grant(size, t, at)] == map[t := Grant(size, t, at)];
    }
  }

  lemma AllLive(l: LedgerState, now: real)
    requires forall t :: t in l.outstanding ==> l.outstanding[t].expiresAt > now
    ensures Live(l, now) == l.outstanding
  {
    assert forall t :: t in l.outstanding ==> t in Live(l, now) && Live(l, now)[t] == l.outstanding[t];
  }
}
