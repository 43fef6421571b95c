/** What a poll asks for and in which order it takes what it gets, whatever the source does: the window
    and the batch of the query, exactly; gaps, exactly; and the order of pending and of polled work. */
module MonitorQueries {
  import opened Numbers
  import opened Timestamps
  import opened PendingKeys
  import opened MonitorSteps
  import opened MonitorSafety

  // ---- the window ----

  /** With a cursor, the query asks for the incidents beyond it that are not older than the catch-up
      limit: the overlap never decides, as the cursor does. Without one, for those of the lookback. */
  lemma {:induction false} MatchesExactly(cfg: Config, cursor: Option<Cursor>, now: int, e: Incident)
    requires cursor.Some? ==> Parse(cursor.value.timestamp).Some?
    ensures Matches(cfg, cursor, now, e) <==>
            && ValidDateTime(e.at)
            && now - (if cursor.Some? then cfg.maxCatchup else cfg.firstLookback) <= Instant(e.at) <= now
            && (cursor.Some? ==> CursorLess(cursor.value, CursorOf(e)))
  {
    if cursor.Some? && ValidDateTime(e.at) {
      QueryMatchesCursorOrder(cursor.value, e);
      ParseIsExact(cursor.value.timestamp);
    }
  }

  // ---- the batch ----

  function Count(cfg: Config, cursor: Option<Cursor>, now: int, s: seq<Incident>): nat {
    if s == [] then 0
    else Count(cfg, cursor, now, s[..|s| - 1]) + (if Matches(cfg, cursor, now, s[|s| - 1]) then 1 else 0)
  }

  function Asked(cfg: Config, cursor: Option<Cursor>, now: int): Incident -> bool {
    (e: Incident) => Matches(cfg, cursor, now, e)
  }

  lemma {:induction false} FilterSnoc<T>(p: T -> bool, s: seq<T>, x: T)
    ensures Filter(p, s + [x]) == Filter(p, s) + (if p(x) then [x] else [])
  {
    FilterConcat(p, s, [x]);
    assert [x][1..] == [] && Filter(p, [x][1..]) == [];
  }

  /** What is found, by position: the i-th incident is found exactly if it matches, and then after as
      many as match before it. */
  lemma {:induction false} FoundAt(p: Incident -> bool, s: seq<Incident>, i: nat)
    requires i < |s| && p(s[i])
    ensures |Filter(p, s[..i])| < |Filter(p, s)| && Filter(p, s)[|Filter(p, s[..i])|] == s[i]
    decreases |s|
  {
    var init, last := s[..|s| - 1], s[|s| - 1];
    assert s == init + [last];
    FilterSnoc(p, init, last);
    if i < |init| {
      assert init[..i] == s[..i];
      FoundAt(p, init, i);
    } else {
      assert s[..i] == init;
    }
  }

  lemma {:induction false} FoundFrom(p: Incident -> bool, s: seq<Incident>, j: nat) returns (i: nat)
    requires j < |Filter(p, s)|
    ensures i < |s| && p(s[i]) && s[i] == Filter(p, s)[j] && |Filter(p, s[..i])| == j
    decreases |s|
  {
    var init, last := s[..|s| - 1], s[|s| - 1];
    assert s == init + [last];
    FilterSnoc(p, init, last);
    if j < |Filter(p, init)| {
      i := FoundFrom(p, init, j);
      assert init[..i] == s[..i];
    } else {
      i := |init|;
      assert s[..i] == init;
    }
  }

  lemma {:induction false} CountIsFound(cfg: Config, cursor: Option<Cursor>, now: int, s: seq<Incident>)
    ensures Count(cfg, cursor, now, s) == |Filter(Asked(cfg, cursor, now), s)|
    decreases |s|
  {
    if s != [] {
      var init, last := s[..|s| - 1], s[|s| - 1];
      assert s == init + [last];
      FilterSnoc(Asked(cfg, cursor, now), init, last);
      CountIsFound(cfg, cursor, now, init);
    }
  }

  lemma {:induction false} SameFilter<T>(p: T -> bool, q: T -> bool, s: seq<T>)
    requires forall x :: p(x) == q(x)
    ensures Filter(p, s) == Filter(q, s)
    decreases |s|
  {
    if s != [] {
      SameFilter(p, q, s[1..]);
    }
  }

  lemma {:induction false} QueryIs(cfg: Config, src: seq<Incident>, visible: nat, cursor: Option<Cursor>, now: int)
    ensures var found := Filter(Asked(cfg, cursor, now), src[..Min(visible, |src|)]);
            Query(cfg, src, visible, cursor, now) == found[..Min(cfg.batchSize, |found|)]
  {
    SameFilter(Asked(cfg, cursor, now), (e: Incident) => Matches(cfg, cursor, now, e), src[..Min(visible, |src|)]);
  }

  lemma {:induction false} SourcePosition(src: seq<Incident>, i: nat, j: nat)
    requires ValidSource(src) && i < |src| && j < |src| && src[i] == src[j]
    ensures i == j
  {
    StrLessIrreflexive(CursorOf(src[i]).timestamp);
    StrLessIrreflexive(CursorOf(src[i]).incidentId);
  }

  /** Whatever the window, a visible incident is returned exactly if it matches and fewer than a batch of
      visible ones match before it. */
  lemma {:induction false} QueryTakesFirstMatches(cfg: Config, src: seq<Incident>, visible: nat, cursor: Option<Cursor>, now: int, i: nat)
    requires ValidSource(src) && i < Min(visible, |src|)
    ensures src[i] in Query(cfg, src, visible, cursor, now) <==>
            Matches(cfg, cursor, now, src[i]) && Count(cfg, cursor, now, src[..i]) < cfg.batchSize
  {
    var p, seen := Asked(cfg, cursor, now), src[..Min(visible, |src|)];
    QueryIs(cfg, src, visible, cursor, now);
    CountIsFound(cfg, cursor, now, src[..i]);
    assert seen[..i] == src[..i] && seen[i] == src[i];
    if Matches(cfg, cursor, now, src[i]) {
      FoundAt(p, seen, i);
    }
    if src[i] in Query(cfg, src, visible, cursor, now) {
      var j :| 0 <= j < Min(cfg.batchSize, |Filter(p, seen)|) && Filter(p, seen)[j] == src[i];
      var k := FoundFrom(p, seen, j);
      SourcePosition(src, k, i);
    }
  }

  /** Nothing else is returned: the results are visible incidents, a batch of them at most, in order. */
  lemma {:induction false} QueryIsOrderedBatch(cfg: Config, src: seq<Incident>, visible: nat, cursor: Option<Cursor>, now: int)
    requires ValidSource(src)
    ensures var found := Query(cfg, src, visible, cursor, now);
            && |found| <= cfg.batchSize
            && (forall e :: e in found ==> e in src[..Min(visible, |src|)])
            && (forall i, j :: 0 <= i < j < |found| ==> CursorLess(CursorOf(found[i]), CursorOf(found[j])))
  {
    var p, seen := Asked(cfg, cursor, now), src[..Min(visible, |src|)];
    QueryIs(cfg, src, visible, cursor, now);
    forall j | 0 <= j < |Filter(p, seen)|
      ensures Filter(p, seen)[j] in seen
    {
      var k := FoundFrom(p, seen, j);
    }
    forall i, j | 0 <= i < j < |Filter(p, seen)|
      ensures CursorLess(CursorOf(Filter(p, seen)[i]), CursorOf(Filter(p, seen)[j]))
    {
      var k := FoundFrom(p, seen, i);
      var l := FoundFrom(p, seen, j);
      FoundInOrder(p, seen, k, l);
    }
  }

  lemma {:induction false} FoundInOrder(p: Incident -> bool, s: seq<Incident>, k: nat, l: nat)
    requires k <= |s| && l <= |s| && |Filter(p, s[..k])| < |Filter(p, s[..l])|
    ensures k < l
  {
    if l <= k {
      assert s[..k] == s[..l] + s[l..k];
      FilterConcat(p, s[..l], s[l..k]);
    }
  }

  /** A poll leaves a gap exactly if the next incident is not in its window: with c settled, the query
      returns the incident at c if and only if that is visible and in the window. */
  lemma {:induction false} NextIsReturnedExactly(cfg: Config, src: seq<Incident>, visible: nat, c: nat, now: int)
    requires ValidConfig(cfg) && ValidSource(src) && c < |src|
    ensures src[c] in Query(cfg, src, visible, CursorAt(src, c), now) <==>
            c < visible && now - (if c == 0 then cfg.firstLookback else cfg.maxCatchup) <= Instant(src[c].at) <= now
  {
    var cursor := CursorAt(src, c);
    if c > 0 {
      IsoRoundTrip(src[c - 1].at);
    }
    MatchesExactly(cfg, cursor, now, src[c]);
    if c < visible {
      NoneBefore(cfg, src, c, c, now);
      QueryTakesFirstMatches(cfg, src, visible, cursor, now, c);
    } else if src[c] in Query(cfg, src, visible, cursor, now) {
      QueryIsOrderedBatch(cfg, src, visible, cursor, now);
      var k :| 0 <= k < visible && src[k] == src[c];
      SourcePosition(src, k, c);
    }
  }

  lemma {:induction false} NoneBefore(cfg: Config, src: seq<Incident>, c: nat, k: nat, now: int)
    requires ValidSource(src) && k <= c < |src|
    ensures Count(cfg, CursorAt(src, c), now, src[..k]) == 0
    decreases k
  {
    if k > 0 {
      assert src[..k][..k - 1] == src[..k - 1];
      NoneBefore(cfg, src, c, k - 1, now);
      IsoRoundTrip(src[c - 1].at);
      MatchesExactly(cfg, CursorAt(src, c), now, src[k - 1]);
      SettledIsBehind(src, c, k - 1);
    }
  }

  // ---- the order of work ----

  /** The calls go on from earlier ones, with incidents that rise from the cursor on. */
  ghost predicate RisesFrom(calls: seq<HandlerCall>, cursor: Option<Cursor>, calls': seq<HandlerCall>) {
    |calls| <= |calls'| && calls'[..|calls|] == calls && Rising(cursor, calls'[|calls|..])
  }

  lemma {:induction false} RisesFromNext(calls: seq<HandlerCall>, cursor: Option<Cursor>, x: HandlerCall, calls': seq<HandlerCall>)
    requires cursor.Some? ==> CursorLess(cursor.value, CursorOf(x.event))
    requires RisesFrom(calls + [x], Some(CursorOf(x.event)), calls')
    ensures RisesFrom(calls, cursor, calls')
  {
    RisingCons(cursor, x, calls'[|calls| + 1..]);
    assert calls'[|calls|] == (calls + [x])[|calls|] == x;
    assert calls'[|calls|..] == [x] + calls'[|calls| + 1..];
    assert calls'[..|calls|] == calls'[..|calls| + 1][..|calls|];
  }

  /** One turn on an incident beyond the cursor: one handler call at most, and on from there. */
  lemma {:induction false} OneTurn(cfg: Config, w: World, cursor: Option<Cursor>, events: seq<Incident>, turns: seq<Turn>) returns (w': World, go: bool)
    requires events != [] && turns != [] && turns[0].Handle?
    requires cursor.Some? ==> CursorLess(cursor.value, CursorOf(events[0]))
    ensures w'.calls == w.calls + [HandlerCall(events[0], |w.outcomes|, turns[0].fate)]
    ensures ProcessEvents(cfg, w, cursor, events, turns)
            == if go then ProcessEvents(cfg, w', Some(CursorOf(events[0])), events[1..], turns[1..]) else w'
  {
    var e := Entry(PendingKey(CursorOf(events[0])), events[0], 0);
    var stored := Store(w, w.blob.(pending := Put(w.blob.pending, e)));
    var (v, on) := Process(cfg, stored, e, turns[0].fate);
    w', go := v, on;
  }

  /** Polled work is taken in rising order, however the source returns it: each incident handed to the
      handler is beyond the cursor and beyond all handed out before, so none is handed out twice. */
  lemma {:induction false} EventsAreTakenInOrder(cfg: Config, w: World, cursor: Option<Cursor>, events: seq<Incident>, turns: seq<Turn>)
    ensures RisesFrom(w.calls, cursor, ProcessEvents(cfg, w, cursor, events, turns).calls)
    decreases |events|
  {
    if events != [] && turns != [] && !turns[0].StopBefore? {
      if cursor.Some? && !CursorLess(cursor.value, CursorOf(events[0])) {
        EventsAreTakenInOrder(cfg, w, cursor, events[1..], turns);
      } else if turns[0].Handle? {
        var x := HandlerCall(events[0], |w.outcomes|, turns[0].fate);
        var w', go := OneTurn(cfg, w, cursor, events, turns);
        if go {
          EventsAreTakenInOrder(cfg, w', Some(CursorOf(events[0])), events[1..], turns[1..]);
        }
        RisesFromNext(w.calls, cursor, x, ProcessEvents(cfg, w, cursor, events, turns).calls);
      }
    }
  }

  ghost predicate Rising(cursor: Option<Cursor>, calls: seq<HandlerCall>) {
    && (forall i :: 0 <= i < |calls| && cursor.Some? ==> CursorLess(cursor.value, CursorOf(calls[i].event)))
    && (forall i, j :: 0 <= i < j < |calls| ==> CursorLess(CursorOf(calls[i].event), CursorOf(calls[j].event)))
  }

  lemma {:induction false} RisingCons(cursor: Option<Cursor>, x: HandlerCall, rest: seq<HandlerCall>)
    requires cursor.Some? ==> CursorLess(cursor.value, CursorOf(x.event))
    requires Rising(Some(CursorOf(x.event)), rest)
    ensures Rising(cursor, [x] + rest)
  {
    var all := [x] + rest;
    forall i | 0 <= i < |all| && cursor.Some?
      ensures CursorLess(cursor.value, CursorOf(all[i].event))
    {
      if i > 0 {
        assert all[i] == rest[i - 1];
        CursorLessTransitive(cursor.value, CursorOf(x.event), CursorOf(rest[i - 1].event));
      }
    }
  }

  ghost predicate InCursorOrder(entries: seq<Entry>) {
    forall i, j :: 0 <= i < j < |entries| ==> !CursorLess(CursorOf(entries[j].event), CursorOf(entries[i].event))
  }

  lemma {:induction false} NotLessTransitive(a: Cursor, b: Cursor, c: Cursor)
    requires !CursorLess(b, a) && !CursorLess(c, b)
    ensures !CursorLess(c, a)
  {
    CursorLessTotal(a, b);
    CursorLessTotal(b, c);
    if CursorLess(c, a) {
      if CursorLess(a, b) {
        CursorLessTransitive(c, a, b);
      }
    }
  }

  lemma {:induction false} InsertKeepsOrder(e: Entry, sorted: seq<Entry>)
    requires InCursorOrder(sorted)
    ensures InCursorOrder(Insert(e, sorted)) && multiset(Insert(e, sorted)) == multiset(sorted) + multiset{e}
    decreases |sorted|
  {
    if sorted == [] || CursorLess(CursorOf(e.event), CursorOf(sorted[0].event)) {
      if sorted != [] {
        SmallestFirst(e, sorted);
      }
    } else {
      InsertKeepsOrder(e, sorted[1..]);
      assert sorted == [sorted[0]] + sorted[1..];
      HeadStays(e, sorted);
    }
  }

  lemma {:induction false} SmallestFirst(e: Entry, sorted: seq<Entry>)
    requires InCursorOrder(sorted) && sorted != [] && CursorLess(CursorOf(e.event), CursorOf(sorted[0].event))
    ensures InCursorOrder([e] + sorted)
  {
    forall j | 0 <= j < |sorted|
      ensures !CursorLess(CursorOf(sorted[j].event), CursorOf(e.event))
    {
      CursorLessAsymmetric(CursorOf(e.event), CursorOf(sorted[0].event));
      if j > 0 {
        NotLessTransitive(CursorOf(e.event), CursorOf(sorted[0].event), CursorOf(sorted[j].event));
      }
    }
  }

  lemma {:induction false} HeadStays(e: Entry, sorted: seq<Entry>)
    requires InCursorOrder(sorted) && sorted != [] && !CursorLess(CursorOf(e.event), CursorOf(sorted[0].event))
    requires InCursorOrder(Insert(e, sorted[1..]))
    requires multiset(Insert(e, sorted[1..])) == multiset(sorted[1..]) + multiset{e}
    ensures InCursorOrder([sorted[0]] + Insert(e, sorted[1..]))
  {
    var rest := Insert(e, sorted[1..]);
    forall j | 0 <= j < |rest|
      ensures !CursorLess(CursorOf(rest[j].event), CursorOf(sorted[0].event))
    {
      assert rest[j] in multiset(rest);
      assert rest[j] == e || rest[j] in sorted[1..];
    }
  }

  /** Pending work is processed in cursor order, all of it and nothing else. */
  lemma {:induction false} PendingIsSorted(pending: seq<Entry>)
    ensures InCursorOrder(Sorted(pending)) && multiset(Sorted(pending)) == multiset(pending)
    decreases |pending|
  {
    if pending != [] {
      var init, last := pending[..|pending| - 1], pending[|pending| - 1];
      PendingIsSorted(init);
      InsertKeepsOrder(last, Sorted(init));
      assert pending == init + [last];
    }
  }

  // ---- pending as a dictionary ----

  function Find(pending: seq<Entry>, key: string): Option<Entry> {
    if pending == [] then None else if pending[0].key == key then Some(pending[0]) else Find(pending[1..], key)
  }

  ghost predicate UniqueKeys(pending: seq<Entry>) {
    forall i, j :: 0 <= i < j < |pending| ==> pending[i].key != pending[j].key
  }

  /** Storing an entry replaces the one of its key or adds it; other keys keep theirs. */
  lemma {:induction false} PutThenFind(pending: seq<Entry>, e: Entry, key: string)
    ensures Find(Put(pending, e), key) == if key == e.key then Some(e) else Find(pending, key)
    decreases |pending|
  {
    if pending != [] && pending[0].key != e.key {
      PutThenFind(pending[1..], e, key);
      assert ([pending[0]] + Put(pending[1..], e))[1..] == Put(pending[1..], e);
    } else if pending != [] {
      assert ([e] + pending[1..])[1..] == pending[1..];
    }
  }

  lemma {:induction false} FindNone(pending: seq<Entry>, key: string)
    requires forall i :: 0 <= i < |pending| ==> pending[i].key != key
    ensures Find(pending, key) == None
    decreases |pending|
  {
    if pending != [] {
      FindNone(pending[1..], key);
    }
  }

  /** Deleting a key removes its entry; other keys keep theirs. */
  lemma {:induction false} WithoutThenFind(pending: seq<Entry>, gone: string, key: string)
    requires UniqueKeys(pending)
    ensures Find(Without(pending, gone), key) == if key == gone then None else Find(pending, key)
    decreases |pending|
  {
    if pending != [] {
      if pending[0].key == gone {
        if key == gone {
          FindNone(pending[1..], key);
        }
      } else {
        WithoutThenFind(pending[1..], gone, key);
        assert ([pending[0]] + Without(pending[1..], gone))[1..] == Without(pending[1..], gone);
      }
    }
  }
}
