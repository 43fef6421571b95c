/** The ledger and its leases as objects updated in place, proved against the effects on values. */
module LeaseService {
  import opened Numbers
  import B = BudgetLease

  class Ledger {
    var budget: int
    var granted: int
    var settled: int
    var halted: bool
    var nextToken: int
    var outstanding: map<int, B.Grant>

    function View(): B.LedgerState
      reads this
    {
      B.LedgerState(budget, granted, settled, halted, nextToken, outstanding)
    }

    predicate Valid()
      reads this
    {
      nextToken >= 1 && forall t :: t in outstanding ==> 1 <= t < nextToken && outstanding[t].token == t
    }

    constructor (budget: int)
      ensures Valid() && View() == B.FreshLedger(budget)
    {
      this.budget, granted, settled := budget, 0, 0;
      halted, nextToken, outstanding := false, 1, map[];
    }

    /** Returns expired grants to the pool, oldest first, and reports their sum. */
    method ReclaimExpired(now: real) returns (sum: int)
      requires Valid()
      modifies this
      ensures Valid() && View() == B.Reclaim(old(View()), now)
      ensures sum == B.ReclaimableAt(old(View()), now)
    {
      sum := 0;
      ghost var live := B.Live(View(), now);
      for t := 1 to nextToken
        invariant outstanding == map k | k in old(outstanding) && (k < t ==> k in live) :: old(outstanding)[k]
        invariant sum == B.AmountBelow(old(outstanding), t) - B.AmountBelow(live, t)
        invariant granted == old(granted) - sum
        invariant View() == old(View()).(granted := granted, outstanding := outstanding)
      {
        if t in outstanding && outstanding[t].expiresAt <= now {
          granted := granted - outstanding[t].amount;
          sum := sum + outstanding[t].amount;
          outstanding := outstanding - {t};
        }
      }
      assert outstanding == live;
    }

    /** Hands out a slice, possibly a partial one; None stands for LedgerFull. */
    method Grant(size: int, now: real, ttl: real) returns (g: Option<B.Grant>)
      requires Valid()
      modifies this
      ensures Valid() && (View(), g) == B.Issue(old(View()), size, now, ttl)
    {
      var reclaimed := ReclaimExpired(now);
      if halted {
        return None;
      }
      var available := budget - granted;
      if available <= 0 {
        halted := true;
        return None;
      }
      var amount := Min(size, available);
      granted := granted + amount;
      var slice := B.Grant(amount, nextToken, now + ttl);
      outstanding := outstanding[slice.token := slice];
      nextToken := nextToken + 1;
      return Some(slice);
    }

    method Settle(token: int, spent: int, unused: int) returns (ok: bool)
      requires Valid()
      modifies this
      ensures Valid() && (View(), ok) == B.Settle(old(View()), token, spent, unused)
    {
      if token !in outstanding {
        return false;
      }
      settled := settled + spent;
      granted := granted - unused;
      outstanding := outstanding - {token};
      return true;
    }
  }

  class Lease {
    const ledger: Ledger
    const size: int
    const renewAt: real
    var remaining: int
    var spent: int
    var halted: bool
    var token: int

    function View(): B.LeaseState
      reads this
    {
      B.LeaseState(size, remaining, spent, halted, token)
    }

    constructor (ledger: Ledger, size: int, renewAt: real)
      ensures this.ledger == ledger && this.size == size && View() == B.FreshLease(size)
    {
      this.ledger, this.size, this.renewAt := ledger, size, renewAt;
      remaining, spent, halted, token := 0, 0, false, 0;
    }

    /** An affordable cost can be debited without running into overdraft. */
    predicate CanAfford(cost: int)
      reads this
    {
      B.CanAfford(View(), cost)
    }

    predicate NeedsRenewal()
      reads this
    {
      B.NeedsRenewal(View(), renewAt)
    }

    method Renew(now: real)
      requires ledger.Valid()
      modifies this, ledger
      ensures ledger.Valid()
      ensures (ledger.View(), View()) == B.Renew(old(ledger.View()), old(View()), now)
    {
      var g := ledger.Grant(size, now, B.TTL);
      if g.None? {
        halted := true;
        return;
      }
      remaining := remaining + g.value.amount;
      token := g.value.token;
    }

    method Debit(cost: int)
      requires ledger.Valid()
      modifies this, ledger
      ensures ledger.Valid()
      ensures (ledger.View(), View()) == B.Debit(old(ledger.View()), old(View()), cost)
      ensures old(CanAfford(cost)) && cost < old(remaining) ==>
                remaining > 0 && !halted && ledger.View() == old(ledger.View())
    {
      remaining := remaining - cost;
      spent := spent + cost;
      if remaining <= 0 {
        Renew(0.0);
      }
    }

    method Release() returns (ok: bool)
      requires ledger.Valid()
      modifies this, ledger
      ensures ledger.Valid()
      ensures (ledger.View(), View(), ok) == B.Release(old(ledger.View()), old(View()))
    {
      var unused := Max(0, remaining);
      ok := ledger.Settle(token, spent, unused);
      remaining := 0;
      spent := 0;
    }
  }

  /** Renewing all leases in turn until the ledger halts ends, with the whole budget handed out in
      at most ceil(budget / size) grants. */
  method RenewUntilHalted(ledger: Ledger, leases: seq<Lease>, size: int)
    requires size > 0 && leases != [] && ledger.Valid()
    requires forall b :: b in leases ==> b.ledger == ledger && b.size == size && (b.halted ==> ledger.halted)
    requires forall t :: t in ledger.outstanding ==> ledger.outstanding[t].expiresAt > 0.0
    requires B.FullSlices(ledger.View(), size) && (ledger.halted ==> ledger.granted == ledger.budget)
    modifies ledger, leases
    ensures ledger.halted && ledger.budget == old(ledger.budget) && ledger.granted == ledger.budget
    ensures ledger.nextToken - 1 <= (ledger.budget + size - 1) / size
  {
    while !ledger.halted
      invariant Renewable(ledger, leases, size) && ledger.budget == old(ledger.budget)
      decreases if ledger.halted then 0 else 1, ledger.budget - ledger.granted
    {
      ghost var before := ledger.granted;
      for k := 0 to |leases|
        invariant Renewable(ledger, leases, size) && ledger.budget == old(ledger.budget)
        invariant before <= ledger.granted
        invariant k > 0 ==> ledger.halted || before < ledger.granted
      {
        if !leases[k].halted {
          RenewOne(ledger, leases, k, size);
        }
      }
    }
    B.CeilBound(ledger.nextToken - 1, size, ledger.budget);
  }

  ghost predicate Renewable(ledger: Ledger, leases: seq<Lease>, size: int)
    reads ledger, leases
  {
    && ledger.Valid()
    && (forall b :: b in leases ==> b.ledger == ledger && b.size == size && (b.halted ==> ledger.halted))
    && (forall t :: t in ledger.outstanding ==> ledger.outstanding[t].expiresAt > 0.0)
    && B.FullSlices(ledger.View(), size)
    && (ledger.halted ==> ledger.granted == ledger.budget)
  }

  method RenewOne(ledger: Ledger, leases: seq<Lease>, k: nat, size: int)
    requires size > 0 && k < |leases| && Renewable(ledger, leases, size)
    modifies ledger, leases[k]
    ensures Renewable(ledger, leases, size) && ledger.budget == old(ledger.budget)
    ensures ledger.halted || ledger.granted > old(ledger.granted)
    ensures ledger.granted >= old(ledger.granted)
  {
    var live := B.Live(ledger.View(), 0.0);
    assert forall t :: t in ledger.outstanding ==> t in live && live[t] == ledger.outstanding[t];
    assert live == ledger.outstanding;
    B.IssueKeepsFullSlices(ledger.View(), size, 0.0);
    leases[k].Renew(0.0);
  }
}
