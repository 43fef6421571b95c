/** Exactly when the ledger of budget leasing can count less than nothing as granted. */
module LeaseGranted {
  import opened Numbers
  import opened BudgetLease

  /** A lease keeps only its newest token, so after two renewals a release hands back both slices
      while the first token stays outstanding; when that one expires its slice is handed back a
      second time and the ledger's granted amount drops below zero. */
  lemma ReclaimReturnsTwice(size: int)
    requires size >= 1
    ensures var p := Fresh(2 * size, [size]);
            var q := Step(Step(Step(Step(p, RenewOp(0, 0.0)), RenewOp(0, 0.0)), ReleaseOp(0)), ReclaimOp(300.0));
            q.past.spend == 0 && q.ledger.granted == -size
  {
    var p := Fresh(2 * size, [size]);
    assert p.leases == [FreshLease(size)];
    var g1, g2 := Grant(size, 1, 300.0), Grant(size, 2, 300.0);
    assert Live(p.ledger, 0.0) == map[];
    var p1 := Step(p, RenewOp(0, 0.0));
    assert p1.ledger == LedgerState(2 * size, size, 0, false, 2, map[1 := g1]);
    assert p1.leases == [LeaseState(size, size, 0, false, 1)];
    TwoRenewals(p1, size, g1, g2);
    NoneBelow(3);
    OneBelow(1, size, 3);
  }

  lemma TwoRenewals(p1: Pool, size: int, g1: Grant, g2: Grant)
    requires size >= 1 && g1 == Grant(size, 1, 300.0) && g2 == Grant(size, 2, 300.0)
    requires p1.ledger == LedgerState(2 * size, size, 0, false, 2, map[1 := g1])
    requires p1.leases == [LeaseState(size, size, 0, false, 1)]
    ensures var p3 := Step(Step(p1, RenewOp(0, 0.0)), ReleaseOp(0));
            && p3.ledger == LedgerState(2 * size, 0, 0, false, 3, map[1 := g1])
            && Live(p3.ledger, 300.0) == map[]
            && p3.past.spend == p1.past.spend
  {
    assert Live(p1.ledger, 0.0) == map[1 := g1];
    var p2 := Step(p1, RenewOp(0, 0.0));
    assert p2.ledger == LedgerState(2 * size, 2 * size, 0, false, 3, map[1 := g1, 2 := g2]);
    assert p2.leases == [LeaseState(size, 2 * size, 0, false, 2)];
    assert p2.ledger.outstanding - {2} == map[1 := g1];
  }

  lemma {:induction false} AmountNonNegative(m: map<int, Grant>, n: int)
    requires forall t :: t in m ==> m[t].amount >= 0
    ensures AmountBelow(m, n) >= 0
    decreases n
  {
    if n > 0 {
      AmountNonNegative(m, n - 1);
    }
  }

  // ---- exactly when the granted amount never drops below zero ----

  /** Leases are renewed by hand only when `may` says so; nothing is charged in reverse. */
  ghost predicate RenewsWhen(p: Pool, ops: seq<Op>, may: LeaseState -> bool) {
    ops == [] || (
      && RenewsWhen(p, ops[..|ops| - 1], may)
      && var op, leases := ops[|ops| - 1], Run(p, ops[..|ops| - 1]).leases;
         (&& (op.RenewOp? && op.i < |leases| ==> may(leases[op.i]))
          && (op.DebitOp? ==> op.cost >= 0)))
  }

  /** At most `low` remains. */
  function AtMost(low: int): LeaseState -> bool { (x: LeaseState) => x.remaining <= low }

  function OnNeed(renewAt: real): LeaseState -> bool { (x: LeaseState) => NeedsRenewal(x, renewAt) }

  /** A lease holds no more than its newest token was granted, if that is outstanding. */
  predicate Covered(l: LedgerState, x: LeaseState) {
    x.token < l.nextToken && (x.token in l.outstanding ==> x.remaining <= l.outstanding[x.token].amount)
  }

  ghost predicate AllCovered(p: Pool) {
    && (forall i :: 0 <= i < |p.leases| ==> Covered(p.ledger, p.leases[i]))
    && (forall t :: t in p.ledger.outstanding ==> p.ledger.outstanding[t].amount >= 0 && t < p.ledger.nextToken)
    && (forall i :: 0 <= i < |p.leases| ==> p.leases[i].size >= 0)
    && (forall i :: 0 <= i < |p.past.closings| ==> p.past.closings[i].unused <= p.past.closings[i].amount)
  }

  lemma RenewalKeepsCovered(p: Pool, i: nat, x: LeaseState, now: real, past: Past)
    requires AllCovered(p) && i < |p.leases| && x.remaining <= 0 && x.size == p.leases[i].size && x.token == p.leases[i].token
    requires past.closings == p.past.closings
    ensures var (l', x') := Renew(p.ledger, x, now);
            AllCovered(Pool(l', p.leases[i := x'], past))
  {
    var (l', x') := Renew(p.ledger, x, now);
    forall j {:trigger p.leases[j]} | 0 <= j < |p.leases|
      ensures Covered(l', p.leases[i := x'][j]) && p.leases[i := x'][j].size >= 0
    {
      assert Covered(p.ledger, p.leases[j]);
    }
  }

  lemma StepKeepsCovered(p: Pool, op: Op)
    requires AllCovered(p)
    requires op.RenewOp? && op.i < |p.leases| ==> p.leases[op.i].remaining <= 0
    requires op.DebitOp? ==> op.cost >= 0
    ensures AllCovered(Step(p, op))
  {
    match op
    case RenewOp(i, now) =>
      if i < |p.leases| {
        RenewalKeepsCovered(p, i, p.leases[i], now, Step(p, op).past);
      }
    case DebitOp(i, cost) =>
      if i < |p.leases| && p.leases[i].remaining - cost <= 0 {
        var x := p.leases[i];
        RenewalKeepsCovered(p, i, x.(remaining := x.remaining - cost, spent := x.spent + cost), 0.0, Step(p, op).past);
      }
    case ReleaseOp(i) => if i < |p.leases| { ReleaseKeepsCovered(p, i); }
    case ReclaimOp(now) => ReclaimKeepsCovered(p, now);
  }

  lemma ReleaseKeepsCovered(p: Pool, i: nat)
    requires AllCovered(p) && i < |p.leases|
    ensures AllCovered(StepRelease(p, i))
  {
    assert Covered(p.ledger, p.leases[i]);
  }

  lemma ReclaimKeepsCovered(p: Pool, now: real)
    requires AllCovered(p)
    ensures AllCovered(Step(p, ReclaimOp(now)))
  {
  }

  lemma {:induction false} FrugalRunsAreCovered(budget: int, sizes: seq<int>, ops: seq<Op>, may: LeaseState -> bool)
    requires forall i :: 0 <= i < |sizes| ==> sizes[i] >= 0
    requires forall x: LeaseState :: may(x) && x.size in sizes ==> x.remaining <= 0
    requires RenewsWhen(Fresh(budget, sizes), ops, may)
    ensures AllCovered(Run(Fresh(budget, sizes), ops))
    decreases |ops|
  {
    if ops != [] {
      var init, op := ops[..|ops| - 1], ops[|ops| - 1];
      FrugalRunsAreCovered(budget, sizes, init, may);
      BudgetIsFixed(Fresh(budget, sizes), init);
      assert op.RenewOp? && op.i < |sizes| ==> Run(Fresh(budget, sizes), init).leases[op.i].size == sizes[op.i];
      StepKeepsCovered(Run(Fresh(budget, sizes), init), op);
    }
  }

  lemma {:induction false} KeptNonNegative(closings: seq<Closing>)
    requires forall i :: 0 <= i < |closings| ==> closings[i].unused <= closings[i].amount
    ensures Kept(closings) >= 0
    decreases |closings|
  {
    if closings != [] {
      KeptNonNegative(closings[..|closings| - 1]);
    }
  }

  lemma FrugalRunsGrantNonNegative(budget: int, sizes: seq<int>, ops: seq<Op>, may: LeaseState -> bool)
    requires budget >= 0 && forall i :: 0 <= i < |sizes| ==> sizes[i] >= 0
    requires forall x: LeaseState :: may(x) && x.size in sizes ==> x.remaining <= 0
    requires RenewsWhen(Fresh(budget, sizes), ops, may)
    ensures Run(Fresh(budget, sizes), ops).ledger.granted >= 0
  {
    var p := Run(Fresh(budget, sizes), ops);
    BooksBalance(budget, sizes, ops);
    FrugalRunsAreCovered(budget, sizes, ops, may);
    KeptNonNegative(p.past.closings);
    AmountNonNegative(p.ledger.outstanding, p.ledger.nextToken);
  }

  /** The granted amount never drops below zero in runs that renew leases by hand only when at most
      `low` remains if and only if that means: only when nothing remains. */
  lemma GrantedStaysNonNegativeExactly(low: int)
    ensures (forall budget, sizes, ops ::
               budget >= 0 && (forall i :: 0 <= i < |sizes| ==> sizes[i] >= 0) && RenewsWhen(Fresh(budget, sizes), ops, AtMost(low)) ==>
               Run(Fresh(budget, sizes), ops).ledger.granted >= 0) <==> low <= 0
  {
    if low <= 0 {
      forall budget, sizes, ops |
        budget >= 0 && (forall i :: 0 <= i < |sizes| ==> sizes[i] >= 0) && RenewsWhen(Fresh(budget, sizes), ops, AtMost(low))
        ensures Run(Fresh(budget, sizes), ops).ledger.granted >= 0
      {
        FrugalRunsGrantNonNegative(budget, sizes, ops, AtMost(low));
      }
    } else {
      PrefetchGoesNegative(1, AtMost(low));
    }
  }

  /** With leases of one size that are renewed by hand when needs_renewal says so, the granted amount
      never drops below zero if and only if that means: only when nothing remains. The default, three
      tenths, allows that for sizes up to 3 only. */
  lemma PrefetchKeepsGrantedExactly(size: int, renewAt: real)
    requires size >= 1
    ensures (forall budget, sizes, ops ::
               budget >= 0 && (forall i :: 0 <= i < |sizes| ==> sizes[i] == size) && RenewsWhen(Fresh(budget, sizes), ops, OnNeed(renewAt)) ==>
               Run(Fresh(budget, sizes), ops).ledger.granted >= 0) <==> size as real * renewAt <= 1.0
  {
    if size as real * renewAt <= 1.0 {
      forall budget, sizes, ops |
        budget >= 0 && (forall i :: 0 <= i < |sizes| ==> sizes[i] == size) && RenewsWhen(Fresh(budget, sizes), ops, OnNeed(renewAt))
        ensures Run(Fresh(budget, sizes), ops).ledger.granted >= 0
      {
        NeedOnlyWhenEmpty(sizes, size, renewAt);
        FrugalRunsGrantNonNegative(budget, sizes, ops, OnNeed(renewAt));
      }
    } else {
      PrefetchGoesNegative(size, OnNeed(renewAt));
    }
  }

  lemma NeedOnlyWhenEmpty(sizes: seq<int>, size: int, renewAt: real)
    requires (forall i :: 0 <= i < |sizes| ==> sizes[i] == size) && size as real * renewAt <= 1.0
    ensures forall x: LeaseState :: OnNeed(renewAt)(x) && x.size in sizes ==> x.remaining <= 0
  {
    forall x: LeaseState | OnNeed(renewAt)(x) && x.size in sizes
      ensures x.remaining <= 0
    {
      assert x.size == size;
    }
  }

  /** Renewed when 1 is left and then released, a lease hands back its whole first slice too, which
      expiry then hands back again. */
  function PrefetchRun(size: int): seq<Op> {
    [] + [RenewOp(0, 0.0)] + [DebitOp(0, size - 1)] + [RenewOp(0, 0.0)] + [ReleaseOp(0)] + [ReclaimOp(300.0)]
  }

  lemma PrefetchGoesNegative(size: int, may: LeaseState -> bool)
    requires size >= 1 && may(FreshLease(size)) && may(LeaseState(size, 1, size - 1, false, 1))
    ensures RenewsWhen(Fresh(2 * size, [size]), PrefetchRun(size), may)
    ensures Run(Fresh(2 * size, [size]), PrefetchRun(size)).ledger.granted == -1
  {
    var p := Fresh(2 * size, [size]);
    assert p.leases == [FreshLease(size)];
    FirstSlice(p, size);
    var q := Step(p, RenewOp(0, 0.0));
    var r := Step(q, DebitOp(0, size - 1));
    SecondSlice(r, size);
    FiveSteps(p, RenewOp(0, 0.0), DebitOp(0, size - 1), RenewOp(0, 0.0), ReleaseOp(0), ReclaimOp(300.0), may);
  }

  lemma FirstSlice(p: Pool, size: int)
    requires size >= 1 && p.ledger == FreshLedger(2 * size) && p.leases == [FreshLease(size)]
    ensures var q := Step(p, RenewOp(0, 0.0));
            && q.ledger == LedgerState(2 * size, size, 0, false, 2, map[1 := Grant(size, 1, 300.0)])
            && q.leases == [LeaseState(size, size, 0, false, 1)]
  {
    AllLive(p.ledger, 0.0);
  }

  lemma SecondSlice(r: Pool, size: int)
    requires size >= 1 && r.leases == [LeaseState(size, 1, size - 1, false, 1)]
    requires r.ledger == LedgerState(2 * size, size, 0, false, 2, map[1 := Grant(size, 1, 300.0)])
    ensures Step(Step(Step(r, RenewOp(0, 0.0)), ReleaseOp(0)), ReclaimOp(300.0)).ledger.granted == -1
  {
    var g1, g2 := Grant(size, 1, 300.0), Grant(size, 2, 300.0);
    AllLive(r.ledger, 0.0);
    var r1 := Step(r, RenewOp(0, 0.0));
    assert r1.ledger == LedgerState(2 * size, 2 * size, 0, false, 3, map[1 := g1, 2 := g2]);
    assert r1.leases == [LeaseState(size, size + 1, size - 1, false, 2)];
    BothHandedBack(r1, size, g1, g2);
  }

  lemma BothHandedBack(r1: Pool, size: int, g1: Grant, g2: Grant)
    requires size >= 1 && g1 == Grant(size, 1, 300.0) && g2 == Grant(size, 2, 300.0)
    requires r1.ledger == LedgerState(2 * size, 2 * size, 0, false, 3, map[1 := g1, 2 := g2])
    requires r1.leases == [LeaseState(size, size + 1, size - 1, false, 2)]
    ensures Step(Step(r1, ReleaseOp(0)), ReclaimOp(300.0)).ledger.granted == -1
  {
    assert r1.ledger.outstanding - {2} == map[1 := g1];
    var l := Step(r1, ReleaseOp(0)).ledger;
    assert l.outstanding == map[1 := g1] && l.granted == size - 1 && l.nextToken == 3;
    assert Live(l, 300.0) == map[];
    NoneBelow(3);
    OneBelow(1, size, 3);
  }

  lemma FiveSteps(p: Pool, a: Op, b: Op, c: Op, d: Op, e: Op, may: LeaseState -> bool)
    requires a.RenewOp? && b.DebitOp? && b.cost >= 0 && c.RenewOp? && d.ReleaseOp? && e.ReclaimOp?
    requires a.i < |p.leases| ==> may(p.leases[a.i])
    requires c.i < |Step(Step(p, a), b).leases| ==> may(Step(Step(p, a), b).leases[c.i])
    ensures Run(p, [] + [a] + [b] + [c] + [d] + [e]) == Step(Step(Step(Step(Step(p, a), b), c), d), e)
    ensures RenewsWhen(p, [] + [a] + [b] + [c] + [d] + [e], may)
  {
    RenewSnoc(p, [], a, may);
    RenewSnoc(p, [] + [a], b, may);
    RenewSnoc(p, [] + [a] + [b], c, may);
    RenewSnoc(p, [] + [a] + [b] + [c], d, may);
    RenewSnoc(p, [] + [a] + [b] + [c] + [d], e, may);
  }

  lemma RenewSnoc(p: Pool, ops: seq<Op>, op: Op, may: LeaseState -> bool)
    requires RenewsWhen(p, ops, may)
    requires op.RenewOp? && op.i < |Run(p, ops).leases| ==> may(Run(p, ops).leases[op.i])
    requires op.DebitOp? ==> op.cost >= 0
    ensures RenewsWhen(p, ops + [op], may) && Run(p, ops + [op]) == Step(Run(p, ops), op)
  {
    assert (ops + [op])[..|ops|] == ops;
  }
}
