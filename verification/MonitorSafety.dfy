/** No incident is skipped, settled twice or allowed to block: the monitor over whole runs. */
module MonitorSafety {
  import opened Numbers
  import opened Timestamps
  import opened PendingKeys
  import opened MonitorSteps

  /** The cursor of a source of which the first c incidents are settled. */
  function CursorAt(src: seq<Incident>, c: nat): Option<Cursor>
    requires c <= |src|
  {
    if c == 0 then None else Some(CursorOf(src[c - 1]))
  }

  /** A blob when the first c incidents are settled: nothing but possibly the next incident is
      pending, with attempts to spare, and every dead letter used up all of its own. */
  ghost predicate BlobAt(cfg: Config, src: seq<Incident>, b: Blob, c: nat) {
    && c <= |src|
    && b.cursor == CursorAt(src, c)
    && (b.pending == [] || (
          && c < |src| && |b.pending| == 1
          && b.pending[0].event == src[c]
          && b.pending[0].attempts < cfg.maxAttempts))
    && (forall i :: 0 <= i < |b.dead| ==> b.dead[i].attempts == cfg.maxAttempts)
  }

  function DeadOnes(cfg: Config, outcomes: seq<Outcome>): seq<DeadLetter> {
    if outcomes == [] then []
    else
      var last := outcomes[|outcomes| - 1];
      DeadOnes(cfg, outcomes[..|outcomes| - 1])
      + (if last.dead then [LetterFor(last.event, cfg.maxAttempts)] else [])
  }

  /** How often the handler was called for the i-th incident and met the given fate. */
  function CallsFor(calls: seq<HandlerCall>, i: nat, fate: Fate): nat {
    if calls == [] then 0
    else
      var last := calls[|calls| - 1];
      CallsFor(calls[..|calls| - 1], i, fate) + (if last.settled == i && last.fate == fate then 1 else 0)
  }

  ghost predicate CallsAt(src: seq<Incident>, calls: seq<HandlerCall>, c: nat) {
    && (forall i :: 0 <= i < |calls| ==>
          calls[i].settled < |src| && calls[i].settled <= c && calls[i].event == src[calls[i].settled])
    && (forall i, j :: 0 <= i < j < |calls| ==> calls[i].settled <= calls[j].settled)
  }

  ghost predicate WritesAt(cfg: Config, src: seq<Incident>, writes: seq<Write>, c: nat) {
    && (forall i :: 0 <= i < |writes| ==> writes[i].settled <= c && BlobAt(cfg, src, writes[i].blob, writes[i].settled))
    && (forall i, j :: 0 <= i < j < |writes| ==> writes[i].settled <= writes[j].settled)
  }

  /** The calls recorded for the i-th incident: so many failures, and a success or none. */
  ghost predicate Called(calls: seq<HandlerCall>, i: nat, failures: nat, success: bool) {
    CallsFor(calls, i, Failed) == failures && CallsFor(calls, i, Succeeded) == if success then 1 else 0
  }

  function PendingAttempts(w: World): nat {
    if w.blob.pending == [] then 0 else w.blob.pending[0].attempts
  }

  /** A dead-lettered incident failed as often as allowed and never succeeded; a completed one
      succeeded, once, after fewer failures; the next one failed as often as its attempts tell. */
  ghost predicate CallsMade(cfg: Config, w: World) {
    && (forall i :: 0 <= i < |w.outcomes| ==> CallsSettled(cfg, w.calls, i, w.outcomes[i].dead))
    && Called(w.calls, |w.outcomes|, PendingAttempts(w), false)
  }

  ghost predicate CallsSettled(cfg: Config, calls: seq<HandlerCall>, i: nat, dead: bool) {
    if dead then Called(calls, i, cfg.maxAttempts, false)
    else CallsFor(calls, i, Succeeded) == 1 && CallsFor(calls, i, Failed) < cfg.maxAttempts
  }

  /** The invariant but for the calls. */
  ghost predicate InOrder(cfg: Config, src: seq<Incident>, w: World) {
    var c := |w.outcomes|;
    && BlobAt(cfg, src, w.blob, c)
    && (forall i :: 0 <= i < c ==> w.outcomes[i].event == src[i])
    && w.blob.dead == DeadOnes(cfg, w.outcomes)
    && CallsAt(src, w.calls, c)
    && WritesAt(cfg, src, w.writes, c)
  }

  /** The invariant: the first |outcomes| incidents of the source are settled, in order. */
  ghost predicate Tidy(cfg: Config, src: seq<Incident>, w: World) { InOrder(cfg, src, w) && CallsMade(cfg, w) }

  lemma {:induction false} CallsForSnoc(calls: seq<HandlerCall>, x: HandlerCall, i: nat, fate: Fate)
    ensures CallsFor(calls + [x], i, fate) == CallsFor(calls, i, fate) + (if x.settled == i && x.fate == fate then 1 else 0)
  {
    assert (calls + [x])[..|calls|] == calls;
  }

  lemma {:induction false} NoCallsBeyond(calls: seq<HandlerCall>, c: nat, i: nat)
    requires c < i && forall k :: 0 <= k < |calls| ==> calls[k].settled <= c
    ensures Called(calls, i, 0, false)
    decreases |calls|
  {
    if calls != [] {
      NoCallsBeyond(calls[..|calls| - 1], c, i);
    }
  }

  lemma DeadOnesSnoc(cfg: Config, outcomes: seq<Outcome>, x: Outcome)
    ensures DeadOnes(cfg, outcomes + [x]) == DeadOnes(cfg, outcomes)
            + (if x.dead then [LetterFor(x.event, cfg.maxAttempts)] else [])
  {
    assert (outcomes + [x])[..|outcomes|] == outcomes;
  }

  /** The handler has been called for the pending incident, and the result not yet recorded. */
  ghost predicate AfterCall(cfg: Config, src: seq<Incident>, w: World, fate: Fate) {
    && InOrder(cfg, src, w) && w.blob.pending != []
    && (forall i :: 0 <= i < |w.outcomes| ==> CallsSettled(cfg, w.calls, i, w.outcomes[i].dead))
    && Called(w.calls, |w.outcomes|, w.blob.pending[0].attempts + (if fate == Failed then 1 else 0), fate == Succeeded)
  }

  /** Calling the handler for the next incident. */
  lemma CallIsMade(cfg: Config, src: seq<Incident>, w: World, fate: Fate)
    requires Tidy(cfg, src, w) && w.blob.pending != []
    ensures var w' := w.(calls := w.calls + [HandlerCall(src[|w.outcomes|], |w.outcomes|, fate)]);
            AfterCall(cfg, src, w', fate) && (fate == Died || fate == LeaseLostMeanwhile ==> Tidy(cfg, src, w'))
  {
    var c := |w.outcomes|;
    var x := HandlerCall(src[c], c, fate);
    OneMoreCall(w.calls, x, w.blob.pending[0].attempts);
    forall i | 0 <= i < c
      ensures CallsSettled(cfg, w.calls + [x], i, w.outcomes[i].dead)
    {
      OtherCallsStay(w.calls, x, i);
      assert CallsSettled(cfg, w.calls, i, w.outcomes[i].dead);
    }
  }

  lemma OneMoreCall(calls: seq<HandlerCall>, x: HandlerCall, failures: nat)
    requires Called(calls, x.settled, failures, false)
    ensures Called(calls + [x], x.settled, failures + (if x.fate == Failed then 1 else 0), x.fate == Succeeded)
  {
    CallsForSnoc(calls, x, x.settled, Failed);
    CallsForSnoc(calls, x, x.settled, Succeeded);
  }

  lemma OtherCallsStay(calls: seq<HandlerCall>, x: HandlerCall, i: nat)
    requires i != x.settled
    ensures CallsFor(calls + [x], i, Failed) == CallsFor(calls, i, Failed)
    ensures CallsFor(calls + [x], i, Succeeded) == CallsFor(calls, i, Succeeded)
  {
    CallsForSnoc(calls, x, i, Failed);
    CallsForSnoc(calls, x, i, Succeeded);
  }

  function Retried(w: World): World
    requires |w.blob.pending| == 1
  {
    Store(w, w.blob.(pending := [w.blob.pending[0].(attempts := w.blob.pending[0].attempts + 1)]))
  }

  lemma RetryKeepsTidy(cfg: Config, src: seq<Incident>, w: World)
    requires AfterCall(cfg, src, w, Failed) && w.blob.pending[0].attempts + 1 < cfg.maxAttempts
    ensures Tidy(cfg, src, Retried(w))
  {
  }

  function SettledAs(cfg: Config, w: World, dead: bool): World
    requires |w.blob.pending| == 1
  {
    var e := w.blob.pending[0].event;
    Store(w.(outcomes := w.outcomes + [Outcome(e, dead)]),
          Blob(Some(CursorOf(e)), [], w.blob.dead + (if dead then [LetterFor(e, cfg.maxAttempts)] else [])))
  }

  lemma SettledCalls(cfg: Config, src: seq<Incident>, w: World, w': World, dead: bool)
    requires AfterCall(cfg, src, w, if dead then Failed else Succeeded)
    requires dead ==> w.blob.pending[0].attempts + 1 == cfg.maxAttempts
    requires w'.calls == w.calls && w'.outcomes == w.outcomes + [Outcome(w.blob.pending[0].event, dead)] && w'.blob.pending == []
    ensures CallsMade(cfg, w')
  {
    NoCallsBeyond(w.calls, |w.outcomes|, |w'.outcomes|);
    assert CallsSettled(cfg, w'.calls, |w.outcomes|, dead);
  }

  lemma SettledIsTidy(cfg: Config, src: seq<Incident>, w: World, w': World, dead: bool)
    requires ValidConfig(cfg) && AfterCall(cfg, src, w, if dead then Failed else Succeeded)
    requires dead ==> w.blob.pending[0].attempts + 1 == cfg.maxAttempts
    requires w'.calls == w.calls && w'.outcomes == w.outcomes + [Outcome(w.blob.pending[0].event, dead)]
    requires w'.blob.cursor == Some(CursorOf(w.blob.pending[0].event)) && w'.blob.pending == []
    requires w'.blob.dead == w.blob.dead + (if dead then [LetterFor(w.blob.pending[0].event, cfg.maxAttempts)] else [])
    requires w'.writes == w.writes + [Write(w'.blob, |w'.outcomes|)]
    ensures Tidy(cfg, src, w')
  {
    var c := |w.outcomes|;
    DeadOnesSnoc(cfg, w.outcomes, Outcome(w.blob.pending[0].event, dead));
    SettledCalls(cfg, src, w, w', dead);
    assert forall i :: 0 <= i < c + 1 ==> w'.outcomes[i].event == src[i];
  }

  lemma SettlingKeepsTidy(cfg: Config, src: seq<Incident>, w: World, dead: bool)
    requires ValidConfig(cfg) && AfterCall(cfg, src, w, if dead then Failed else Succeeded)
    requires dead ==> w.blob.pending[0].attempts + 1 == cfg.maxAttempts
    ensures Tidy(cfg, src, SettledAs(cfg, w, dead))
  {
    SettledIsTidy(cfg, src, w, SettledAs(cfg, w, dead), dead);
  }

  lemma ProcessIs(cfg: Config, w: World, fate: Fate)
    requires |w.blob.pending| == 1 && w.blob.pending[0].attempts < cfg.maxAttempts
    ensures var e := w.blob.pending[0];
            var called := w.(calls := w.calls + [HandlerCall(e.event, |w.outcomes|, fate)]);
            Process(cfg, w, e, fate) == (
              if fate.Died? || fate.LeaseLostMeanwhile? then (called, false)
              else if fate.Succeeded? then (SettledAs(cfg, called, false), true)
              else if e.attempts + 1 < cfg.maxAttempts then (Retried(called), false)
              else (SettledAs(cfg, called, true), true))
  {
    var e := w.blob.pending[0];
    assert w.blob.pending == [e];
    assert Without(w.blob.pending, e.key) == [];
    var e' := e.(attempts := e.attempts + 1);
    assert Put(w.blob.pending, e') == [e'];
    assert w.blob.dead + [] == w.blob.dead;
  }

  /** Processing the pending entry leaves the state tidy, with the incident settled exactly when
      run_once may go on. */
  lemma ProcessKeepsTidy(cfg: Config, src: seq<Incident>, w: World, fate: Fate)
    requires ValidConfig(cfg) && Tidy(cfg, src, w) && w.blob.pending != []
    ensures var (w', go) := Process(cfg, w, w.blob.pending[0], fate);
            && Tidy(cfg, src, w')
            && |w'.outcomes| == |w.outcomes| + (if go then 1 else 0)
            && (go ==> w'.blob.pending == [])
            && (go ==> fate.Succeeded? || fate.Failed?)
            && (fate.Succeeded? ==> go)
            && (fate.Failed? && !go ==>
                  w'.blob.pending != [] && w'.blob.pending[0].attempts == w.blob.pending[0].attempts + 1)
  {
    var c, e := |w.outcomes|, w.blob.pending[0];
    CallIsMade(cfg, src, w, fate);
    ProcessIs(cfg, w, fate);
    var called := w.(calls := w.calls + [HandlerCall(src[c], c, fate)]);
    if fate.Succeeded? {
      SettlingKeepsTidy(cfg, src, called, false);
    } else if fate.Failed? {
      if e.attempts + 1 < cfg.maxAttempts {
        RetryKeepsTidy(cfg, src, called);
      } else {
        SettlingKeepsTidy(cfg, src, called, true);
      }
    }
  }

  /** The world after an incident has been stored as pending. */
  function Enqueued(w: World, e: Incident): World {
    Store(w, w.blob.(pending := Put(w.blob.pending, Entry(PendingKey(CursorOf(e)), e, 0))))
  }

  lemma EnqueueKeepsTidy(cfg: Config, src: seq<Incident>, w: World)
    requires ValidConfig(cfg) && Tidy(cfg, src, w) && w.blob.pending == [] && |w.outcomes| < |src|
    ensures var w' := Enqueued(w, src[|w.outcomes|]);
            && Tidy(cfg, src, w') && |w'.blob.pending| == 1 && w'.blob.pending[0].event == src[|w.outcomes|] && w'.blob.pending[0].attempts == 0
            && w'.outcomes == w.outcomes
  {
  }

  /** The turns are those of a monitor that neither crashes nor loses its lease. */
  predicate Steady(turns: seq<Turn>) {
    forall t :: t in turns ==> t == Handle(Failed) || t == Handle(Succeeded)
  }

  /** One turn of the loop over polled incidents, when the next one is beyond the cursor. */
  lemma EventsUnfold(cfg: Config, w: World, cursor: Option<Cursor>, events: seq<Incident>, turns: seq<Turn>)
    requires events != [] && turns != [] && !turns[0].StopBefore? && w.blob.pending == []
    requires cursor.Some? ==> CursorLess(cursor.value, CursorOf(events[0]))
    ensures var stored := Enqueued(w, events[0]);
            var (w', go) := Taken(cfg, stored, turns[0]);
            ProcessEvents(cfg, w, cursor, events, turns)
            == if go then ProcessEvents(cfg, w', Some(CursorOf(events[0])), events[1..], turns[1..]) else w'
  {
  }

  /** What a turn does once the incident is pending. */
  function Taken(cfg: Config, stored: World, turn: Turn): (World, bool)
    requires stored.blob.pending != [] && !turn.StopBefore?
  {
    if turn.StopAfterEnqueue? then (stored, false) else Process(cfg, stored, stored.blob.pending[0], turn.fate)
  }

  lemma TakenKeepsTidy(cfg: Config, src: seq<Incident>, w: World, turn: Turn)
    requires ValidConfig(cfg) && Tidy(cfg, src, w) && w.blob.pending == [] && |w.outcomes| < |src| && !turn.StopBefore?
    ensures var c := |w.outcomes|;
            var (w', go) := Taken(cfg, Enqueued(w, src[c]), turn);
            && Tidy(cfg, src, w') && |w'.outcomes| == c + (if go then 1 else 0)
            && (go ==> w'.blob.pending == [])
            && (turn == Handle(Succeeded) ==> go)
            && (turn == Handle(Failed) && !go ==> w'.blob.pending != [] && w'.blob.pending[0].attempts == 1)
  {
    EnqueueKeepsTidy(cfg, src, w);
    if turn.Handle? {
      ProcessKeepsTidy(cfg, src, Enqueued(w, src[|w.outcomes|]), turn.fate);
    }
  }

  /** What a turn does to the next incident of the source. */
  function TurnOf(cfg: Config, src: seq<Incident>): (World, Turn) -> (World, bool) {
    (w: World, turn: Turn) =>
      if w.blob.pending == [] && |w.outcomes| < |src| && !turn.StopBefore?
      then Taken(cfg, Enqueued(w, src[|w.outcomes|]), turn) else (w, false)
  }

  /** The loop over polled incidents, when these are the incidents of the source up to d. */
  function LoopOf(cfg: Config, src: seq<Incident>, d: nat): (World, seq<Turn>) -> World {
    (w: World, turns: seq<Turn>) =>
      var c := |w.outcomes|;
      if c <= d <= |src| then ProcessEvents(cfg, w, CursorAt(src, c), src[c..d], turns) else w
  }

  lemma NextTurn(cfg: Config, src: seq<Incident>, w: World, c: nat, d: nat, turns: seq<Turn>)
    requires ValidSource(src) && w.blob.pending == [] && c == |w.outcomes| < d <= |src| && turns != [] && !turns[0].StopBefore?
    ensures var (w', go) := TurnOf(cfg, src)(w, turns[0]);
            LoopOf(cfg, src, d)(w, turns)
            == if !go then w' else ProcessEvents(cfg, w', CursorAt(src, c + 1), src[c + 1..d], turns[1..])
  {
    assert src[c..d][0] == src[c] && src[c..d][1..] == src[c + 1..d];
    EventsUnfold(cfg, w, CursorAt(src, c), src[c..d], turns);
  }

  lemma TurnKeeps(cfg: Config, src: seq<Incident>, w: World, turn: Turn)
    requires ValidConfig(cfg) && Tidy(cfg, src, w) && w.blob.pending == [] && |w.outcomes| < |src| && !turn.StopBefore?
    ensures var (w', go) := TurnOf(cfg, src)(w, turn);
            && Tidy(cfg, src, w') && |w'.outcomes| == |w.outcomes| + (if go then 1 else 0)
            && (go ==> w'.blob.pending == [])
            && (turn == Handle(Succeeded) ==> go)
            && (turn == Handle(Failed) && !go ==> w'.blob.pending != [] && w'.blob.pending[0].attempts == 1)
  {
    TakenKeepsTidy(cfg, src, w, turn);
  }

  // ---- the loop over polled incidents ----

  ghost function TidyWorlds(cfg: Config, src: seq<Incident>): World -> bool {
    (w: World) => Tidy(cfg, src, w)
  }

  ghost predicate AtRest(w: World, d: nat, kept: World -> bool) {
    kept(w) && w.blob.pending == [] && |w.outcomes| <= d
  }

  /** The loop takes turns until d incidents are settled, the turns run out, or one says stop. */
  ghost predicate TakesTurn(d: nat, take: (World, Turn) -> (World, bool), loop: (World, seq<Turn>) -> World, w: World, turns: seq<Turn>) {
    loop(w, turns) ==
      if |w.outcomes| == d || turns == [] || turns[0].StopBefore? then w
      else
        var (w', go) := take(w, turns[0]);
        if go then loop(w', turns[1..]) else w'
  }

  /** What a turn does: it keeps a property, and settles one incident or stops. */
  ghost predicate TurnDone(turn: Turn, w: World, w': World, go: bool, kept: World -> bool) {
    && kept(w') && |w'.outcomes| == |w.outcomes| + (if go then 1 else 0)
    && (go ==> w'.blob.pending == [])
    && (turn == Handle(Succeeded) ==> go)
    && (turn == Handle(Failed) && !go ==> w'.blob.pending != [] && w'.blob.pending[0].attempts == 1)
  }

  ghost predicate KeptByTurns(d: nat, take: (World, Turn) -> (World, bool), kept: World -> bool) {
    forall w: World, turn: Turn :: AtRest(w, d, kept) && |w.outcomes| < d && !turn.StopBefore? ==>
      TurnDone(turn, w, take(w, turn).0, take(w, turn).1, kept)
  }

  /** What the whole loop does, from c incidents settled up to d: it keeps the property, and if
      nothing but the handler goes wrong and the turns suffice, either all are settled or the last
      one handled is left with a retry. */
  ghost predicate LoopDone(c: nat, d: nat, turns: seq<Turn>, w': World, kept: World -> bool)
    requires c <= d
  {
    && kept(w') && c <= |w'.outcomes| <= d
    && (Steady(turns) && |turns| >= d - c && |w'.outcomes| < d ==>
          w'.blob.pending != [] && w'.blob.pending[0].attempts == 1)
    && (|w'.outcomes| == d ==> w'.blob.pending == [])
  }

  lemma {:induction false} LoopKeeps(d: nat, take: (World, Turn) -> (World, bool), loop: (World, seq<Turn>) -> World,
                                     kept: World -> bool, w: World, turns: seq<Turn>)
    requires forall v: World, ts: seq<Turn> :: AtRest(v, d, kept) ==> TakesTurn(d, take, loop, v, ts)
    requires KeptByTurns(d, take, kept) && AtRest(w, d, kept)
    ensures LoopDone(|w.outcomes|, d, turns, loop(w, turns), kept)
    decreases |turns|
  {
    assert TakesTurn(d, take, loop, w, turns);
    if |w.outcomes| < d && turns != [] {
      assert turns[0] in turns && forall t :: t in turns[1..] ==> t in turns;
      if !turns[0].StopBefore? {
        var (w1, go) := take(w, turns[0]);
        assert TurnDone(turns[0], w, w1, go, kept);
        if go {
          LoopKeeps(d, take, loop, kept, w1, turns[1..]);
        }
      }
    }
  }

  lemma TurnsKeepTidy(cfg: Config, src: seq<Incident>, d: nat)
    requires ValidConfig(cfg) && d <= |src|
    ensures KeptByTurns(d, TurnOf(cfg, src), TidyWorlds(cfg, src))
  {
    forall w: World, turn: Turn | AtRest(w, d, TidyWorlds(cfg, src)) && |w.outcomes| < d && !turn.StopBefore?
      ensures TurnDone(turn, w, TurnOf(cfg, src)(w, turn).0, TurnOf(cfg, src)(w, turn).1, TidyWorlds(cfg, src))
    {
      TurnKeeps(cfg, src, w, turn);
    }
  }

  lemma LoopTakesTurn(cfg: Config, src: seq<Incident>, d: nat, w: World, turns: seq<Turn>)
    requires ValidConfig(cfg) && ValidSource(src) && d <= |src| && AtRest(w, d, TidyWorlds(cfg, src))
    ensures TakesTurn(d, TurnOf(cfg, src), LoopOf(cfg, src, d), w, turns)
  {
    var c := |w.outcomes|;
    if c < d && turns != [] && !turns[0].StopBefore? {
      NextTurn(cfg, src, w, c, d, turns);
      TurnKeeps(cfg, src, w, turns[0]);
    }
  }

  lemma LoopOfTidy(cfg: Config, src: seq<Incident>, d: nat, w: World, turns: seq<Turn>)
    requires ValidConfig(cfg) && ValidSource(src) && d <= |src| && AtRest(w, d, TidyWorlds(cfg, src))
    ensures LoopDone(|w.outcomes|, d, turns, LoopOf(cfg, src, d)(w, turns), TidyWorlds(cfg, src))
  {
    TurnsKeepTidy(cfg, src, d);
    forall v: World, ts: seq<Turn> | AtRest(v, d, TidyWorlds(cfg, src))
      ensures TakesTurn(d, TurnOf(cfg, src), LoopOf(cfg, src, d), v, ts)
    {
      LoopTakesTurn(cfg, src, d, v, ts);
    }
    LoopKeeps(d, TurnOf(cfg, src), LoopOf(cfg, src, d), TidyWorlds(cfg, src), w, turns);
  }

  ghost predicate Progress(cfg: Config, src: seq<Incident>, c: nat, d: nat, w': World, turns: seq<Turn>)
    requires c <= d
  {
    LoopDone(c, d, turns, w', TidyWorlds(cfg, src))
  }

  /** The incidents of the source from the current one up to d are settled in order. */
  lemma EventsProgress(cfg: Config, src: seq<Incident>, w: World, c: nat, d: nat, turns: seq<Turn>)
    requires ValidConfig(cfg) && ValidSource(src) && Tidy(cfg, src, w) && w.blob.pending == []
    requires c == |w.outcomes| <= d <= |src|
    ensures Progress(cfg, src, c, d, ProcessEvents(cfg, w, CursorAt(src, c), src[c..d], turns), turns)
  {
    LoopOfTidy(cfg, src, d, w, turns);
  }

  // ---- what a poll sees ----

  /** Every visible incident beyond the cursor is inside the query's window of time. */
  ghost predicate InWindow(cfg: Config, src: seq<Incident>, visible: nat, cursor: Option<Cursor>, now: int)
    requires ValidSource(src)
  {
    forall i :: 0 <= i < Min(visible, |src|) && (cursor.Some? ==> CursorLess(cursor.value, CursorOf(src[i]))) ==>
      now - (if cursor.None? then cfg.firstLookback else cfg.maxCatchup) <= Instant(src[i].at) <= now
  }

  lemma {:induction false} FilterConcat<T>(p: T -> bool, a: seq<T>, b: seq<T>)
    ensures Filter(p, a + b) == Filter(p, a) + Filter(p, b)
    decreases |a|
  {
    if a == [] {
      assert a + b == b;
    } else {
      var kept := if p(a[0]) then [a[0]] else [];
      FilterConcat(p, a[1..], b);
      assert a + b == [a[0]] + (a[1..] + b);
      FilterCons(p, a[0], a[1..] + b);
      assert (kept + Filter(p, a[1..])) + Filter(p, b) == kept + (Filter(p, a[1..]) + Filter(p, b));
    }
  }

  lemma FilterCons<T>(p: T -> bool, x: T, s: seq<T>)
    ensures Filter(p, [x] + s) == (if p(x) then [x] else []) + Filter(p, s)
  {
    assert ([x] + s)[1..] == s;
  }

  lemma {:induction false} FilterUniform<T>(p: T -> bool, s: seq<T>, lo: nat, hi: nat, all: bool)
    requires lo <= hi <= |s| && forall i :: lo <= i < hi ==> (p(s[i]) <==> all)
    ensures Filter(p, s[lo..hi]) == if all then s[lo..hi] else []
    decreases hi - lo
  {
    if lo < hi {
      FilterUniform(p, s, lo + 1, hi, all);
      assert s[lo..hi] == [s[lo]] + s[lo + 1..hi];
      assert s[lo..hi][1..] == s[lo + 1..hi];
    }
  }

  lemma FilterFrom<T>(p: T -> bool, s: seq<T>, k: nat, v: nat)
    requires k <= v <= |s| && forall i :: 0 <= i < v ==> (p(s[i]) <==> k <= i)
    ensures Filter(p, s[..v]) == s[k..v]
  {
    assert s[..v] == s[0..k] + s[k..v];
    FilterConcat(p, s[0..k], s[k..v]);
    FilterUniform(p, s, 0, k, false);
    FilterUniform(p, s, k, v, true);
  }

  lemma CursorLessAsymmetric(a: Cursor, b: Cursor)
    requires CursorLess(a, b)
    ensures !CursorLess(b, a)
  {
    StrLessIrreflexive(a.timestamp);
    StrLessIrreflexive(a.incidentId);
    if StrLess(a.timestamp, b.timestamp) && StrLess(b.timestamp, a.timestamp) {
      StrLessTransitive(a.timestamp, b.timestamp, a.timestamp);
    }
    if StrLess(a.incidentId, b.incidentId) && StrLess(b.incidentId, a.incidentId) {
      StrLessTransitive(a.incidentId, b.incidentId, a.incidentId);
    }
  }

  lemma SettledIsBehind(src: seq<Incident>, c: nat, i: nat)
    requires ValidSource(src) && 1 <= c <= |src| && i < |src|
    ensures CursorLess(CursorOf(src[c - 1]), CursorOf(src[i])) <==> c <= i
  {
    if i < c - 1 {
      CursorLessAsymmetric(CursorOf(src[i]), CursorOf(src[c - 1]));
    } else if i == c - 1 {
      StrLessIrreflexive(CursorOf(src[i]).timestamp);
      StrLessIrreflexive(CursorOf(src[i]).incidentId);
    }
  }

  lemma MatchesUnsettled(cfg: Config, src: seq<Incident>, visible: nat, c: nat, now: int, i: nat)
    requires ValidSource(src) && c <= |src| && i < Min(visible, |src|)
    requires InWindow(cfg, src, visible, CursorAt(src, c), now)
    ensures Matches(cfg, CursorAt(src, c), now, src[i]) <==> c <= i
  {
    if c > 0 {
      var last := src[c - 1];
      SettledIsBehind(src, c, i);
      IsoRoundTrip(last.at);
      QueryMatchesCursorOrder(CursorOf(last), src[i]);
      CursorOrderIsTimeOrder(last, src[i]);
    }
  }

  /** The query returns the next incidents: those after the settled ones, up to the batch size. */
  lemma QueryIsNextBatch(cfg: Config, src: seq<Incident>, visible: nat, c: nat, now: int)
    requires ValidSource(src) && c <= |src|
    requires InWindow(cfg, src, visible, CursorAt(src, c), now)
    ensures Query(cfg, src, visible, CursorAt(src, c), now) == src[c..BatchEnd(cfg, src, visible, c)]
  {
    var cursor, v := CursorAt(src, c), Min(visible, |src|);
    var p := (e: Incident) => Matches(cfg, cursor, now, e);
    var k := Min(c, v);
    forall i | 0 <= i < v
      ensures p(src[i]) <==> k <= i
    {
      MatchesUnsettled(cfg, src, visible, c, now, i);
    }
    FilterFrom(p, src, k, v);
  }

  function BatchEnd(cfg: Config, src: seq<Incident>, visible: nat, c: nat): (d: nat)
    requires c <= |src|
    ensures c <= d <= |src|
  {
    Max(c, Min(c + cfg.batchSize, Min(visible, |src|)))
  }

  // ---- whole runs ----

  /** The source's promise to a poll, made for the cursor with which the query is sent. */
  ghost predicate PollOk(cfg: Config, src: seq<Incident>, w: World, poll: Poll)
    requires ValidSource(src)
  {
    var (w', _, go) := AfterPending(cfg, w, poll);
    poll.subscribed && go ==> InWindow(cfg, src, poll.visible, w'.blob.cursor, poll.now)
  }

  lemma PendingOne(cfg: Config, w: World, e: Entry, turns: seq<Turn>)
    requires turns != [] && turns[0].Handle?
    ensures var (w', go) := Process(cfg, w, e, turns[0].fate);
            ProcessPending(cfg, w, [e], turns) == (w', turns[1..], go)
  {
    assert [e][1..] == [];
  }

  lemma PendingProgress(cfg: Config, src: seq<Incident>, w: World, poll: Poll)
    requires ValidConfig(cfg) && Tidy(cfg, src, w)
    ensures var (w', turns, go) := AfterPending(cfg, w, poll);
            && Tidy(cfg, src, w')
            && (w.blob.pending == [] ==> w' == w && turns == poll.turns && go)
            && (w.blob.pending != [] && go ==> |w'.outcomes| == |w.outcomes| + 1 && poll.turns != [] && turns == poll.turns[1..])
            && (go ==> w'.blob.pending == [])
            && (!go ==> |w'.outcomes| == |w.outcomes|)
            && (w.blob.pending != [] && poll.turns != [] && Steady(poll.turns) && !go ==>
                  w'.blob.pending != [] && w'.blob.pending[0].attempts == w.blob.pending[0].attempts + 1)
  {
    if w.blob.pending != [] {
      var e := w.blob.pending[0];
      assert w.blob.pending == [e];
      assert w.blob.pending[..0] == [];
      assert Sorted(w.blob.pending) == [e];
      assert poll.turns != [] ==> poll.turns[0] in poll.turns;
      if poll.turns != [] && poll.turns[0].Handle? {
        ProcessKeepsTidy(cfg, src, w, poll.turns[0].fate);
        var (w1, go) := Process(cfg, w, e, poll.turns[0].fate);
        PendingOne(cfg, w, e, poll.turns);
        assert AfterPending(cfg, w, poll) == (w1, poll.turns[1..], go);
      }
    }
  }

  lemma RunOnceProgress(cfg: Config, src: seq<Incident>, w: World, poll: Poll)
    requires ValidConfig(cfg) && ValidSource(src) && Tidy(cfg, src, w) && poll.subscribed && PollOk(cfg, src, w, poll)
    ensures var (w1, turns, go) := AfterPending(cfg, w, poll);
            var c1 := |w1.outcomes|;
            && c1 <= |src|
            && (go ==> Progress(cfg, src, c1, BatchEnd(cfg, src, poll.visible, c1), RunOnce(cfg, src, w, poll), turns))
            && (!go ==> RunOnce(cfg, src, w, poll) == w1)
  {
    PendingProgress(cfg, src, w, poll);
    var (w1, turns, go) := AfterPending(cfg, w, poll);
    if go {
      var c1 := |w1.outcomes|;
      QueryIsNextBatch(cfg, src, poll.visible, c1, poll.now);
      EventsProgress(cfg, src, w1, c1, BatchEnd(cfg, src, poll.visible, c1), turns);
    }
  }

  lemma RunOnceKeepsTidy(cfg: Config, src: seq<Incident>, w: World, poll: Poll)
    requires ValidConfig(cfg) && ValidSource(src) && Tidy(cfg, src, w) && PollOk(cfg, src, w, poll)
    ensures Tidy(cfg, src, RunOnce(cfg, src, w, poll)) && |RunOnce(cfg, src, w, poll).outcomes| >= |w.outcomes|
  {
    if poll.subscribed {
      RunOnceProgress(cfg, src, w, poll);
      PendingProgress(cfg, src, w, poll);
    }
  }
}
