/** What the incident monitor guarantees over whole runs of polls, with any handler, any crashes
    between durable writes and any lease losses. */
module MonitorGuarantees {
  import opened Numbers
  import opened Timestamps
  import opened PendingKeys
  import opened MonitorSteps
  import opened MonitorSafety

  /** The source keeps its promise at every poll: what a query should return lies in its window. */
  ghost predicate Honest(cfg: Config, src: seq<Incident>, polls: seq<Poll>)
    requires ValidSource(src)
  {
    polls == [] || (
      && Honest(cfg, src, polls[..|polls| - 1])
      && PollOk(cfg, src, RunAll(cfg, src, polls[..|polls| - 1]), polls[|polls| - 1]))
  }

  lemma {:induction false} RunsAreTidy(cfg: Config, src: seq<Incident>, polls: seq<Poll>)
    requires ValidConfig(cfg) && ValidSource(src) && Honest(cfg, src, polls)
    ensures Tidy(cfg, src, RunAll(cfg, src, polls))
    decreases |polls|
  {
    if polls != [] {
      RunsAreTidy(cfg, src, polls[..|polls| - 1]);
      RunOnceKeepsTidy(cfg, src, RunAll(cfg, src, polls[..|polls| - 1]), polls[|polls| - 1]);
    }
  }

  lemma SourceIsDistinct(src: seq<Incident>, i: nat, j: nat)
    requires ValidSource(src) && i < j < |src|
    ensures src[i] != src[j] && !CursorLess(CursorOf(src[j]), CursorOf(src[i]))
  {
    assert CursorLess(CursorOf(src[i]), CursorOf(src[j]));
    CursorLessAsymmetric(CursorOf(src[i]), CursorOf(src[j]));
  }

  /** No-gap delivery: the incidents at or below the durable cursor are exactly those settled, each
      of them once, as completed or as a dead letter and never both, in the order of the source. */
  lemma NoGapDelivery(cfg: Config, src: seq<Incident>, polls: seq<Poll>)
    requires ValidConfig(cfg) && ValidSource(src) && Honest(cfg, src, polls)
    ensures var w := RunAll(cfg, src, polls);
            var c := |w.outcomes|;
            && c <= |src|
            && (forall i :: 0 <= i < c ==> w.outcomes[i].event == src[i])
            && (forall i, j :: 0 <= i < j < c ==> w.outcomes[i].event != w.outcomes[j].event)
            && (forall i :: 0 <= i < |src| ==>
                  (i < c <==> w.blob.cursor.Some? && !CursorLess(w.blob.cursor.value, CursorOf(src[i]))))
            && w.blob.dead == DeadOnes(cfg, w.outcomes)
  {
    RunsAreTidy(cfg, src, polls);
    var w := RunAll(cfg, src, polls);
    var c := |w.outcomes|;
    forall i | 0 <= i < |src|
      ensures i < c <==> w.blob.cursor.Some? && !CursorLess(w.blob.cursor.value, CursorOf(src[i]))
    {
      if c > 0 {
        SettledIsBehind(src, c, i);
      }
    }
    forall i, j | 0 <= i < j < c
      ensures w.outcomes[i].event != w.outcomes[j].event
    {
      SourceIsDistinct(src, i, j);
    }
  }

  /** At least once: a completed incident is one for which a handler call succeeded, just one of those
      that were recorded, after fewer than maxAttempts failures; a dead-lettered one is one whose calls
      failed exactly maxAttempts times and never succeeded. */
  lemma EveryIncidentIsHandled(cfg: Config, src: seq<Incident>, polls: seq<Poll>, i: nat)
    requires ValidConfig(cfg) && ValidSource(src) && Honest(cfg, src, polls)
    requires i < |RunAll(cfg, src, polls).outcomes|
    ensures var w := RunAll(cfg, src, polls);
            if w.outcomes[i].dead then CallsFor(w.calls, i, Failed) == cfg.maxAttempts && CallsFor(w.calls, i, Succeeded) == 0
            else CallsFor(w.calls, i, Failed) < cfg.maxAttempts && CallsFor(w.calls, i, Succeeded) == 1
  {
    RunsAreTidy(cfg, src, polls);
  }

  /** The incidents that were given up, in order. */
  function GivenUp(outcomes: seq<Outcome>): seq<Incident> {
    if outcomes == [] then []
    else
      var last := outcomes[|outcomes| - 1];
      GivenUp(outcomes[..|outcomes| - 1]) + (if last.dead then [last.event] else [])
  }

  /** The letter names the incident, by its id and the instant it happened at, and all its attempts. */
  predicate Names(cfg: Config, x: DeadLetter, e: Incident) {
    x.incidentId == e.id && Parse(x.timestamp) == Some(e.at) && x.attempts == cfg.maxAttempts
  }

  lemma {:induction false} LettersNameTheDead(cfg: Config, outcomes: seq<Outcome>)
    requires forall i :: 0 <= i < |outcomes| ==> ValidDateTime(outcomes[i].event.at)
    ensures |DeadOnes(cfg, outcomes)| == |GivenUp(outcomes)|
    ensures forall k :: 0 <= k < |GivenUp(outcomes)| ==> Names(cfg, DeadOnes(cfg, outcomes)[k], GivenUp(outcomes)[k])
    decreases |outcomes|
  {
    if outcomes != [] {
      LettersNameTheDead(cfg, outcomes[..|outcomes| - 1]);
      IsoRoundTrip(outcomes[|outcomes| - 1].event.at);
    }
  }

  /** There is one dead letter for each incident given up, in order, and it names that incident. */
  lemma {:induction false} DeadLettersAreTrue(cfg: Config, src: seq<Incident>, polls: seq<Poll>)
    requires ValidConfig(cfg) && ValidSource(src) && Honest(cfg, src, polls)
    ensures var w := RunAll(cfg, src, polls);
            && |w.blob.dead| == |GivenUp(w.outcomes)|
            && forall k :: 0 <= k < |w.blob.dead| ==> Names(cfg, w.blob.dead[k], GivenUp(w.outcomes)[k])
  {
    NoGapDelivery(cfg, src, polls);
    LettersNameTheDead(cfg, RunAll(cfg, src, polls).outcomes);
  }

  /** Handler calls over the whole run come in nondecreasing cursor order. */
  lemma HandlerCallsAreOrdered(cfg: Config, src: seq<Incident>, polls: seq<Poll>, i: nat, j: nat)
    requires ValidConfig(cfg) && ValidSource(src) && Honest(cfg, src, polls)
    requires i < j < |RunAll(cfg, src, polls).calls|
    ensures var calls := RunAll(cfg, src, polls).calls;
            !CursorLess(CursorOf(calls[j].event), CursorOf(calls[i].event))
  {
    RunsAreTidy(cfg, src, polls);
    var w := RunAll(cfg, src, polls);
    InSourceOrder(src, w.calls[i].settled, w.calls[j].settled);
  }

  lemma InSourceOrder(src: seq<Incident>, a: nat, b: nat)
    requires ValidSource(src) && a <= b < |src|
    ensures !CursorLess(CursorOf(src[b]), CursorOf(src[a]))
  {
    if a < b {
      SourceIsDistinct(src, a, b);
    } else {
      StrLessIrreflexive(CursorOf(src[a]).timestamp);
      StrLessIrreflexive(CursorOf(src[a]).incidentId);
    }
  }

  predicate Rises(a: Option<Cursor>, b: Option<Cursor>) {
    a == b || (b.Some? && (a.None? || CursorLess(a.value, b.value)))
  }

  /** Every durable write holds at most one pending incident, beyond the cursor and with attempts to
      spare, and only dead letters that used all of theirs; its cursor is the previous one or higher. */
  lemma DurableWritesAreSound(cfg: Config, src: seq<Incident>, polls: seq<Poll>, i: nat)
    requires ValidConfig(cfg) && ValidSource(src) && Honest(cfg, src, polls)
    requires i < |RunAll(cfg, src, polls).writes|
    ensures var writes := RunAll(cfg, src, polls).writes;
            var b := writes[i].blob;
            && |b.pending| <= 1
            && (forall e :: e in b.pending ==>
                  e.attempts < cfg.maxAttempts && (b.cursor.Some? ==> CursorLess(b.cursor.value, CursorOf(e.event))))
            && (forall x :: x in b.dead ==> x.attempts == cfg.maxAttempts)
            && (i > 0 ==> Rises(writes[i - 1].blob.cursor, b.cursor))
  {
    RunsAreTidy(cfg, src, polls);
    var w := RunAll(cfg, src, polls);
    BlobIsSound(cfg, src, w.writes[i].blob, w.writes[i].settled);
    if i > 0 {
      CursorsRise(src, w.writes[i - 1].settled, w.writes[i].settled);
    }
  }

  lemma BlobIsSound(cfg: Config, src: seq<Incident>, b: Blob, c: nat)
    requires ValidSource(src) && BlobAt(cfg, src, b, c)
    ensures |b.pending| <= 1 && b.cursor == CursorAt(src, c)
    ensures forall e :: e in b.pending ==>
              e.attempts < cfg.maxAttempts && (b.cursor.Some? ==> CursorLess(b.cursor.value, CursorOf(e.event)))
    ensures forall x :: x in b.dead ==> x.attempts == cfg.maxAttempts
  {
    if b.pending != [] {
      assert b.pending == [b.pending[0]];
    }
  }

  lemma CursorsRise(src: seq<Incident>, a: nat, c: nat)
    requires ValidSource(src) && a <= c <= |src|
    ensures Rises(CursorAt(src, a), CursorAt(src, c))
  {
    if 0 < a < c {
      SettledIsBehind(src, a, c - 1);
    }
  }

  // ---- bounded drain ----

  function CeilDiv(n: nat, k: nat): nat
    requires k >= 1
  {
    (n + k - 1) / k
  }

  /** The polls still needed, at most: one for every retry left and one for every batch left. */
  function Rank(cfg: Config, n: nat, c: nat, attempts: nat): int
    requires c <= n && ValidConfig(cfg)
  {
    (n - c) * (cfg.maxAttempts - 1) - attempts + CeilDiv(n - c, cfg.batchSize)
  }

  lemma CeilDivDrops(n: nat, k: nat, m: nat)
    requires k >= 1 && n >= 1 && m <= n && (m == 0 || m + k <= n)
    ensures CeilDiv(m, k) + 1 <= CeilDiv(n, k)
  {
    var p := CeilDiv(m, k);
    if m == 0 {
      assert (n + k - 1) / k >= 1 by { DivAtLeast(n + k - 1, k, 1); }
      assert (k - 1) / k == 0 by { DivUnique(k - 1, k, 0, k - 1); }
    } else {
      assert p * k <= m + k - 1;
      DivAtLeast(n + k - 1, k, p + 1);
    }
  }

  lemma CeilDivMonotone(n: nat, k: nat, m: nat)
    requires k >= 1 && m <= n
    ensures CeilDiv(m, k) <= CeilDiv(n, k)
  {
    DivAtLeast(n + k - 1, k, CeilDiv(m, k));
  }

  lemma DivAtLeast(x: nat, k: nat, q: nat)
    requires k >= 1 && q * k <= x
    ensures q <= x / k
  {
    var d := q - x / k;
    assert x == k * (x / k) + x % k;
    assert k * d == q * k - k * (x / k);
    MultiplesAreApart(k, d);
  }

  /** A batch settled, or a retry used up, lowers the rank. */
  lemma RankDrops(cfg: Config, n: nat, c: nat, a: nat, d: nat, a': nat)
    requires ValidConfig(cfg) && c <= d <= n && c < n && a < cfg.maxAttempts && a' < cfg.maxAttempts
    requires (a' == 0 && d >= Min(c + cfg.batchSize, n)) || (a' == a + 1 && d == c) || (a' == 1 && d > c)
    ensures Rank(cfg, n, d, a') + 1 <= Rank(cfg, n, c, a)
  {
    RetriesDrop(n - c, n - d, cfg.maxAttempts - 1);
    if a' == 0 {
      CeilDivDrops(n - c, cfg.batchSize, n - d);
    } else {
      CeilDivMonotone(n - c, cfg.batchSize, n - d);
    }
  }

  lemma RetriesDrop(n: nat, m: nat, k: nat)
    requires m <= n
    ensures m * k <= n * k && (m < n ==> m * k + k <= n * k)
  {
    var d := n - m;
    assert (m + d) * k == m * k + d * k;
    if d > 0 {
      assert ((d - 1) + 1) * k == (d - 1) * k + k;
    }
  }

  lemma RankIsPositive(cfg: Config, n: nat, c: nat, a: nat)
    requires ValidConfig(cfg) && c < n && a < cfg.maxAttempts
    ensures Rank(cfg, n, c, a) >= 1
  {
    RetriesDrop(n - c, 0, cfg.maxAttempts - 1);
    CeilDivDrops(n - c, cfg.batchSize, 0);
  }

  /** A poll by a subscribed monitor that sees the whole source, neither crashes nor loses its lease,
      and gets to handle a full batch on top of the pending incident. */
  ghost predicate FullPoll(cfg: Config, src: seq<Incident>, w: World, poll: Poll)
    requires ValidSource(src)
  {
    && poll.subscribed && poll.visible >= |src| && Steady(poll.turns) && |poll.turns| >= cfg.batchSize + 1
    && PollOk(cfg, src, w, poll)
  }

  /** A full poll settles a batch, or ends by using up a retry of the incident it stops at. */
  lemma FullPollOutcome(cfg: Config, src: seq<Incident>, w: World, poll: Poll)
    requires ValidConfig(cfg) && ValidSource(src) && Tidy(cfg, src, w) && FullPoll(cfg, src, w, poll)
    ensures var w', c, n := RunOnce(cfg, src, w, poll), |w.outcomes|, |src|;
            var d, a' := |w'.outcomes|, PendingAttempts(w');
            && Tidy(cfg, src, w') && c <= d <= n
            && ((a' == 0 && d >= Min(c + cfg.batchSize, n)) || (a' == PendingAttempts(w) + 1 && d == c) || (a' == 1 && d > c))
  {
    PendingProgress(cfg, src, w, poll);
    RunOnceProgress(cfg, src, w, poll);
    var (w1, turns, go) := AfterPending(cfg, w, poll);
    if go {
      SteadyTail(poll.turns);
      var c1 := |w1.outcomes|;
    }
  }

  lemma FullPollAdvances(cfg: Config, src: seq<Incident>, w: World, poll: Poll)
    requires ValidConfig(cfg) && ValidSource(src) && Tidy(cfg, src, w) && FullPoll(cfg, src, w, poll)
    ensures var w', n := RunOnce(cfg, src, w, poll), |src|;
            && Tidy(cfg, src, w') && |w.outcomes| <= |w'.outcomes| <= n
            && PendingAttempts(w) < cfg.maxAttempts && PendingAttempts(w') < cfg.maxAttempts
            && (|w.outcomes| < n ==>
                  Rank(cfg, n, |w'.outcomes|, PendingAttempts(w')) + 1 <= Rank(cfg, n, |w.outcomes|, PendingAttempts(w)))
  {
    var w' := RunOnce(cfg, src, w, poll);
    FullPollOutcome(cfg, src, w, poll);
    if |w.outcomes| < |src| {
      RankDrops(cfg, |src|, |w.outcomes|, PendingAttempts(w), |w'.outcomes|, PendingAttempts(w'));
    }
  }

  lemma SteadyTail(turns: seq<Turn>)
    requires Steady(turns) && turns != []
    ensures Steady(turns[1..])
  {
    assert forall t :: t in turns[1..] ==> t in turns;
  }

  ghost predicate AllFull(cfg: Config, src: seq<Incident>, polls: seq<Poll>)
    requires ValidSource(src)
  {
    polls == [] || (
      && AllFull(cfg, src, polls[..|polls| - 1])
      && FullPoll(cfg, src, RunAll(cfg, src, polls[..|polls| - 1]), polls[|polls| - 1]))
  }

  lemma {:induction false} PollsUseUpRank(cfg: Config, src: seq<Incident>, polls: seq<Poll>)
    requires ValidConfig(cfg) && ValidSource(src) && AllFull(cfg, src, polls)
    ensures var w, n := RunAll(cfg, src, polls), |src|;
            && Tidy(cfg, src, w) && |w.outcomes| <= n
            && (|w.outcomes| < n ==> Rank(cfg, n, |w.outcomes|, PendingAttempts(w)) + |polls| <= Rank(cfg, n, 0, 0))
    decreases |polls|
  {
    if polls != [] {
      PollsUseUpRank(cfg, src, polls[..|polls| - 1]);
      FullPollAdvances(cfg, src, RunAll(cfg, src, polls[..|polls| - 1]), polls[|polls| - 1]);
    }
  }

  /** Bounded drain: whatever the handler does, n incidents are all settled after at most
      n (maxAttempts - 1) + ceil(n / batchSize) polls, so no incident blocks those behind it. */
  lemma BoundedDrain(cfg: Config, src: seq<Incident>, polls: seq<Poll>)
    requires ValidConfig(cfg) && ValidSource(src) && AllFull(cfg, src, polls)
    requires |polls| >= |src| * (cfg.maxAttempts - 1) + CeilDiv(|src|, cfg.batchSize)
    ensures var w := RunAll(cfg, src, polls);
            |w.outcomes| == |src| && w.blob.cursor == CursorAt(src, |src|) && w.blob.pending == []
  {
    PollsUseUpRank(cfg, src, polls);
    var w := RunAll(cfg, src, polls);
    if |w.outcomes| < |src| {
      RankIsPositive(cfg, |src|, |w.outcomes|, PendingAttempts(w));
    }
  }
}
