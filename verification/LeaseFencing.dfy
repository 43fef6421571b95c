/** Fencing over whole runs: every token is issued once, and from then on it is outstanding, settled
    or reclaimed, and only ever one of these. */
module LeaseFencing {
  import opened Numbers
  import opened BudgetLease

  function SettledTokens(closings: seq<Closing>): set<int> { set c | c in closings :: c.token }

  ghost predicate Increasing(xs: seq<int>) { forall i, j :: 0 <= i < j < |xs| ==> xs[i] < xs[j] }

  ghost predicate Fenced(l: LedgerState, past: Past) {
    && Increasing(past.issued) && (forall t :: t in past.issued ==> t < l.nextToken)
    && (forall t :: t in past.issued <==>
          t in l.outstanding || t in past.expired || t in SettledTokens(past.closings))
    && past.expired !! l.outstanding.Keys
    && SettledTokens(past.closings) !! (l.outstanding.Keys + past.expired)
  }

  lemma ReclaimKeepsFenced(l: LedgerState, past: Past, now: real)
    requires Fenced(l, past)
    ensures Fenced(Reclaim(l, now), past.(expired := past.expired + ExpiredTokens(l, now)))
  {
  }

  lemma IssueKeepsFenced(l: LedgerState, past: Past, size: int, now: real, past': Past)
    requires Fenced(l, past) && past'.closings == past.closings
    requires past'.issued == past.issued + IssuedTokens(l, size, now) && past'.expired == past.expired + ExpiredTokens(l, now)
    ensures Fenced(Issue(l, size, now, TTL).0, past')
  {
    ReclaimKeepsFenced(l, past, now);
    assert forall i :: 0 <= i < |past.issued| ==> past.issued[i] in past.issued;
  }

  lemma SettledAppend(closings: seq<Closing>, c: Closing)
    ensures SettledTokens(closings + [c]) == SettledTokens(closings) + {c.token}
  {
    assert forall x :: x in closings + [c] <==> x in closings || x == c;
  }

  lemma StepKeepsFenced(p: Pool, op: Op)
    requires Fenced(p.ledger, p.past)
    ensures Fenced(Step(p, op).ledger, Step(p, op).past)
  {
    match op
    case RenewOp(i, now) =>
      if i < |p.leases| {
        IssueKeepsFenced(p.ledger, p.past, p.leases[i].size, now, Step(p, op).past);
      }
    case DebitOp(i, cost) =>
      if i < |p.leases| && p.leases[i].remaining - cost <= 0 {
        IssueKeepsFenced(p.ledger, p.past, p.leases[i].size, 0.0, Step(p, op).past);
      }
    case ReleaseOp(i) =>
      if i < |p.leases| && p.leases[i].token in p.ledger.outstanding {
        var x := p.leases[i];
        SettledAppend(p.past.closings, Closing(x.token, p.ledger.outstanding[x.token].amount, Max(0, x.remaining)));
      }
    case ReclaimOp(now) => ReclaimKeepsFenced(p.ledger, p.past, now);
  }

  /** Over every run the issued tokens rise strictly, and they are, without overlap, those that are
      outstanding, those that were reclaimed and those that were settled. */
  lemma {:induction false} TokensAreFenced(budget: int, sizes: seq<int>, ops: seq<Op>)
    ensures var p := Run(Fresh(budget, sizes), ops);
            && Increasing(p.past.issued) && (forall t :: t in p.past.issued ==> t < p.ledger.nextToken)
            && (forall t :: t in p.past.issued <==>
                  t in p.ledger.outstanding || t in p.past.expired || t in SettledTokens(p.past.closings))
            && p.past.expired !! p.ledger.outstanding.Keys
            && SettledTokens(p.past.closings) !! (p.ledger.outstanding.Keys + p.past.expired)
    decreases |ops|
  {
    if ops != [] {
      TokensAreFenced(budget, sizes, ops[..|ops| - 1]);
      StepKeepsFenced(Run(Fresh(budget, sizes), ops[..|ops| - 1]), ops[|ops| - 1]);
    }
  }

  /** What was issued, reclaimed or settled before is a part of what is so later. */
  ghost predicate Extends(past: Past, past': Past) {
    past.issued <= past'.issued && past.expired <= past'.expired && past.closings <= past'.closings
  }

  lemma {:induction false} PastOnlyGrows(p: Pool, ops: seq<Op>, more: seq<Op>)
    ensures Extends(Run(p, ops).past, Run(p, ops + more).past)
    decreases |more|
  {
    if more == [] {
      assert ops + more == ops;
    } else {
      PastOnlyGrows(p, ops, more[..|more| - 1]);
      assert (ops + more)[..|ops + more| - 1] == ops + more[..|more| - 1];
    }
  }

  /** A token settled or reclaimed at some time is not outstanding and not issued at any later one. */
  lemma NoTokenIsReissued(budget: int, sizes: seq<int>, ops: seq<Op>, more: seq<Op>, t: int)
    requires var p := Run(Fresh(budget, sizes), ops);
             t in p.past.expired || t in SettledTokens(p.past.closings)
    ensures var p, q := Run(Fresh(budget, sizes), ops), Run(Fresh(budget, sizes), ops + more);
            p.past.issued <= q.past.issued && t !in q.past.issued[|p.past.issued|..] && t !in q.ledger.outstanding
  {
    var p, q := Run(Fresh(budget, sizes), ops), Run(Fresh(budget, sizes), ops + more);
    TokensAreFenced(budget, sizes, ops);
    TokensAreFenced(budget, sizes, ops + more);
    PastOnlyGrows(Fresh(budget, sizes), ops, more);
    var i :| 0 <= i < |p.past.issued| && p.past.issued[i] == t;
    assert q.past.issued[i] == t;
    assert forall c :: c in p.past.closings ==> c in q.past.closings;
  }
}
