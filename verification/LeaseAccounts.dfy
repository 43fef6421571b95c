/** What the ledger of budget leasing learns of the spending: every micro that was spent is settled, or
    waits in a lease to be, or was reported with a token the ledger no longer knew. */
module LeaseAccounts {
  import opened Numbers
  import opened BudgetLease

  function Unreported(leases: seq<LeaseState>): (xs: seq<int>)
    ensures |xs| == |leases|
  {
    seq(|leases|, i requires 0 <= i < |leases| => leases[i].spent)
  }

  lemma {:induction false} UnreportedUpdate(leases: seq<LeaseState>, i: nat, x: LeaseState)
    requires i < |leases|
    ensures Total(Unreported(leases[i := x])) == Total(Unreported(leases)) - leases[i].spent + x.spent
  {
    TotalUpdate(Unreported(leases), i, x.spent);
    assert Unreported(leases[i := x]) == Unreported(leases)[i := x.spent];
  }

  ghost predicate Reported(p: Pool) {
    p.past.spend == p.ledger.settled + Total(Unreported(p.leases)) + p.past.refused
  }

  lemma {:induction false} StepKeepsReported(p: Pool, op: Op)
    requires Reported(p)
    ensures Reported(Step(p, op))
  {
    match op
    case RenewOp(i, now) => if i < |p.leases| { UnreportedUpdate(p.leases, i, Step(p, op).leases[i]); }
    case DebitOp(i, cost) => if i < |p.leases| { UnreportedUpdate(p.leases, i, Step(p, op).leases[i]); }
    case ReleaseOp(i) => if i < |p.leases| { UnreportedUpdate(p.leases, i, Step(p, op).leases[i]); }
    case ReclaimOp(_) =>
  }

  /** Over every run, what was spent is what the ledger has settled, plus what leases have still to
      report, plus what they reported with a stale token. */
  lemma {:induction false} SpendingIsReported(budget: int, sizes: seq<int>, ops: seq<Op>)
    ensures var p := Run(Fresh(budget, sizes), ops);
            p.past.spend == p.ledger.settled + Total(Unreported(p.leases)) + p.past.refused
    decreases |ops|
  {
    if ops == [] {
      FreshTotals(Unreported(Fresh(budget, sizes).leases));
    } else {
      SpendingIsReported(budget, sizes, ops[..|ops| - 1]);
      StepKeepsReported(Run(Fresh(budget, sizes), ops[..|ops| - 1]), ops[|ops| - 1]);
    }
  }

  lemma {:induction false} TotalNonNegative(xs: seq<int>)
    requires forall i :: 0 <= i < |xs| ==> xs[i] >= 0
    ensures Total(xs) >= 0
    decreases |xs|
  {
    if xs != [] {
      TotalNonNegative(xs[..|xs| - 1]);
    }
  }

  ghost predicate NothingNegative(p: Pool) {
    p.past.refused >= 0 && p.ledger.settled >= 0 && forall i :: 0 <= i < |p.leases| ==> p.leases[i].spent >= 0
  }

  lemma {:induction false} RunsStayNonNegative(budget: int, sizes: seq<int>, ops: seq<Op>)
    requires forall op :: op in ops && op.DebitOp? ==> op.cost >= 0
    ensures NothingNegative(Run(Fresh(budget, sizes), ops))
    decreases |ops|
  {
    if ops != [] {
      RunsStayNonNegative(budget, sizes, ops[..|ops| - 1]);
      assert ops[|ops| - 1] in ops;
    }
  }

  /** The settled amount never exceeds what was spent, and is all of it exactly if every lease has
      reported and no stale token reported anything. */
  lemma {:induction false} SettledIsTrueExactly(budget: int, sizes: seq<int>, ops: seq<Op>)
    requires forall op :: op in ops && op.DebitOp? ==> op.cost >= 0
    ensures var p := Run(Fresh(budget, sizes), ops);
            && 0 <= p.ledger.settled <= p.past.spend
            && (p.ledger.settled == p.past.spend <==>
                p.past.refused == 0 && forall i :: 0 <= i < |p.leases| ==> p.leases[i].spent == 0)
  {
    var p := Run(Fresh(budget, sizes), ops);
    SpendingIsReported(budget, sizes, ops);
    RunsStayNonNegative(budget, sizes, ops);
    TotalNonNegative(Unreported(p.leases));
    ZeroTotal(Unreported(p.leases));
    assert forall i :: 0 <= i < |p.leases| ==> Unreported(p.leases)[i] == p.leases[i].spent;
  }

  lemma {:induction false} ZeroTotal(xs: seq<int>)
    requires forall i :: 0 <= i < |xs| ==> xs[i] >= 0
    ensures Total(xs) == 0 <==> forall i :: 0 <= i < |xs| ==> xs[i] == 0
    decreases |xs|
  {
    if xs != [] {
      var init := xs[..|xs| - 1];
      TotalNonNegative(init);
      ZeroTotal(init);
      assert forall i :: 0 <= i < |init| ==> init[i] == xs[i];
    }
  }

  /** A release is accepted exactly if the lease's newest token is outstanding; it then reports the
      lease's spending and hands back what was left, and in either case the lease starts over. */
  lemma {:induction false} ReleaseReports(l: LedgerState, x: LeaseState)
    ensures var (l', x', ok) := Release(l, x);
            && (ok <==> x.token in l.outstanding)
            && (ok ==> l'.settled - l.settled == x.spent && l.granted - l'.granted == (if x.remaining > 0 then x.remaining else 0)
                       && x.token !in l'.outstanding)
            && (!ok ==> l' == l)
            && x'.remaining == 0 && x'.spent == 0
  {
  }

  // ---- holders ----

  /** A cost is affordable exactly if the holder may go on and, debited without any help from the
      ledger, it leaves no overdraft. */
  lemma {:induction false} AffordableExactly(l: LedgerState, x: LeaseState, cost: int)
    requires l.halted
    ensures CanAfford(x, cost) <==> !x.halted && Debit(l, x, cost).1.remaining >= 0
  {
  }

  ghost predicate HaltsWithLedger(p: Pool) { forall i :: 0 <= i < |p.leases| && p.leases[i].halted ==> p.ledger.halted }

  /** Over every run a lease has halted only if the ledger has. */
  lemma {:induction false} RunsHaltWithLedger(budget: int, sizes: seq<int>, ops: seq<Op>)
    ensures HaltsWithLedger(Run(Fresh(budget, sizes), ops))
    decreases |ops|
  {
    if ops != [] {
      RunsHaltWithLedger(budget, sizes, ops[..|ops| - 1]);
    }
  }

  /** A renewal leaves a lease halted exactly if the ledger is, and that exactly if it was before or has
      granted all of the budget, what has expired given back. */
  lemma {:induction false} RenewalHaltsExactly(budget: int, sizes: seq<int>, ops: seq<Op>, i: nat, now: real)
    requires i < |sizes|
    ensures var p, q := Run(Fresh(budget, sizes), ops), Run(Fresh(budget, sizes), ops + [RenewOp(i, now)]);
            && |p.leases| == |q.leases| == |sizes|
            && (q.leases[i].halted <==> q.ledger.halted)
            && (q.ledger.halted <==> p.ledger.halted || Reclaim(p.ledger, now).granted >= budget)
  {
    BudgetIsFixed(Fresh(budget, sizes), ops);
    RunSnoc(Fresh(budget, sizes), ops, RenewOp(i, now));
    RunsHaltWithLedger(budget, sizes, ops);
  }
}
