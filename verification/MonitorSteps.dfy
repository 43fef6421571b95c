/** The incident monitor's steps on its durable state. A poll is one call of run_once; where the
    handler, the lease or the process may let it down, the outcome is a parameter, so that all
    handlers, lease losses and crashes between two durable writes are covered. */
module MonitorSteps {
  import opened Numbers
  import opened Timestamps
  import opened PendingKeys

  /** Durations in microseconds. */
  datatype Config = Config(firstLookback: nat, maxCatchup: nat, overlap: nat, batchSize: nat, maxAttempts: nat)

  predicate ValidConfig(cfg: Config) { cfg.batchSize >= 1 && cfg.maxAttempts >= 1 }

  datatype Entry = Entry(key: string, event: Incident, attempts: nat)

  datatype DeadLetter = DeadLetter(timestamp: string, incidentId: string, attempts: nat)

  /** The state blob; pending is a dictionary, kept as its entries in order. */
  datatype Blob = Blob(cursor: Option<Cursor>, pending: seq<Entry>, dead: seq<DeadLetter>)

  function LetterFor(e: Incident, attempts: nat): DeadLetter {
    DeadLetter(CursorOf(e).timestamp, CursorOf(e).incidentId, attempts)
  }

  const NO_STATE := Blob(None, [], [])

  /** What becomes of one call of the handler. */
  datatype Fate = Died | Failed | Succeeded | LeaseLostMeanwhile

  /** What becomes of one turn of a loop: given up before it starts (lease lost, crash), given up
      after the incident has been stored as pending, or carried through. */
  datatype Turn = StopBefore | StopAfterEnqueue | Handle(fate: Fate)

  datatype Outcome = Outcome(event: Incident, dead: bool)

  /** A handler call and what became of it, or a durable write, with the number of incidents settled
      before it. */
  datatype HandlerCall = HandlerCall(event: Incident, settled: nat, fate: Fate)

  datatype Write = Write(blob: Blob, settled: nat)

  /** The blob and the history: handler calls, settled incidents and durable writes, in order. */
  datatype World = World(blob: Blob, calls: seq<HandlerCall>, outcomes: seq<Outcome>, writes: seq<Write>)

  const START := World(NO_STATE, [], [], [])

  datatype Poll = Poll(subscribed: bool, now: int, visible: nat, turns: seq<Turn>)

  // ---- the pending dictionary ----

  function Without(pending: seq<Entry>, key: string): seq<Entry> {
    if pending == [] then []
    else if pending[0].key == key then pending[1..]
    else [pending[0]] + Without(pending[1..], key)
  }

  function Put(pending: seq<Entry>, e: Entry): seq<Entry> {
    if pending == [] then [e]
    else if pending[0].key == e.key then [e] + pending[1..]
    else [pending[0]] + Put(pending[1..], e)
  }

  function Insert(e: Entry, sorted: seq<Entry>): seq<Entry> {
    if sorted == [] || CursorLess(CursorOf(e.event), CursorOf(sorted[0].event)) then [e] + sorted
    else [sorted[0]] + Insert(e, sorted[1..])
  }

  /** The pending entries in cursor order. */
  function Sorted(pending: seq<Entry>): seq<Entry> {
    if pending == [] then [] else Insert(pending[|pending| - 1], Sorted(pending[..|pending| - 1]))
  }

  // ---- the query ----

  predicate Matches(cfg: Config, cursor: Option<Cursor>, now: int, e: Incident) {
    ValidDateTime(e.at) && Instant(e.at) <= now && (
      if cursor.None? then now - cfg.firstLookback <= Instant(e.at)
      else
        var since := Parse(cursor.value.timestamp);
        since.Some?
        && (ParseIsExact(cursor.value.timestamp);
            Max(Instant(since.value) - cfg.overlap, now - cfg.maxCatchup) <= Instant(e.at) && QuerySelects(cursor.value, e)))
  }

  function Filter<T>(p: T -> bool, s: seq<T>): seq<T> {
    if s == [] then [] else (if p(s[0]) then [s[0]] else []) + Filter(p, s[1..])
  }

  /** The source: a stream of detected incidents in strict cursor order, of which a poll sees a prefix. */
  ghost predicate ValidSource(src: seq<Incident>) {
    && (forall i :: 0 <= i < |src| ==> ValidDateTime(src[i].at))
    && (forall i, j :: 0 <= i < j < |src| ==> CursorLess(CursorOf(src[i]), CursorOf(src[j])))
  }

  /** What a poll returns: the matching incidents of the visible prefix, a batch of them at most. */
  function Query(cfg: Config, src: seq<Incident>, visible: nat, cursor: Option<Cursor>, now: int): seq<Incident> {
    var found := Filter((e: Incident) => Matches(cfg, cursor, now, e), src[..Min(visible, |src|)]);
    found[..Min(cfg.batchSize, |found|)]
  }

  // ---- the steps ----

  function Store(w: World, b: Blob): World { w.(blob := b, writes := w.writes + [Write(b, |w.outcomes|)]) }

  /** _process on a pending entry; the flag says whether the caller goes on. */
  function Process(cfg: Config, w0: World, e: Entry, fate: Fate): (World, bool) {
    var c := CursorOf(e.event);
    var w := w0.(calls := w0.calls + [HandlerCall(e.event, |w0.outcomes|, fate)]);
    var b := w.blob;
    match fate
    case Died => (w, false)
    case LeaseLostMeanwhile => (w, false)
    case Failed =>
      var attempts := e.attempts + 1;
      if attempts < cfg.maxAttempts then (Store(w, b.(pending := Put(b.pending, e.(attempts := attempts)))), false)
      else
        var settled := w.(outcomes := w.outcomes + [Outcome(e.event, true)]);
        (Store(settled, Blob(Some(c), Without(b.pending, e.key),
                             b.dead + [LetterFor(e.event, attempts)])), true)
    case Succeeded =>
      var settled := w.(outcomes := w.outcomes + [Outcome(e.event, false)]);
      (Store(settled, Blob(Some(c), Without(b.pending, e.key), b.dead)), true)
  }

  /** The loop over pending work; it returns the turns left over and whether run_once goes on. */
  function ProcessPending(cfg: Config, w: World, entries: seq<Entry>, turns: seq<Turn>): (World, seq<Turn>, bool)
    decreases entries
  {
    if entries == [] then (w, turns, true)
    else if turns == [] || !turns[0].Handle? then (w, turns, false)
    else
      var (w', go) := Process(cfg, w, entries[0], turns[0].fate);
      if go then ProcessPending(cfg, w', entries[1..], turns[1..]) else (w', turns[1..], false)
  }

  /** The loop over polled incidents. */
  function ProcessEvents(cfg: Config, w: World, cursor: Option<Cursor>, events: seq<Incident>, turns: seq<Turn>): World
    decreases events
  {
    if events == [] || turns == [] || turns[0].StopBefore? then w
    else
      var c := CursorOf(events[0]);
      if cursor.Some? && !CursorLess(cursor.value, c) then ProcessEvents(cfg, w, cursor, events[1..], turns)
      else
        var e := Entry(PendingKey(c), events[0], 0);
        var stored := Store(w, w.blob.(pending := Put(w.blob.pending, e)));
        if turns[0].StopAfterEnqueue? then stored
        else
          var (w', go) := Process(cfg, stored, e, turns[0].fate);
          if go then ProcessEvents(cfg, w', Some(c), events[1..], turns[1..]) else w'
  }

  function AfterPending(cfg: Config, w: World, poll: Poll): (World, seq<Turn>, bool) {
    ProcessPending(cfg, w, Sorted(w.blob.pending), poll.turns)
  }

  /** run_once. */
  function RunOnce(cfg: Config, src: seq<Incident>, w: World, poll: Poll): World {
    if !poll.subscribed then w
    else
      var (w', turns, go) := AfterPending(cfg, w, poll);
      if !go then w'
      else ProcessEvents(cfg, w', w'.blob.cursor, Query(cfg, src, poll.visible, w'.blob.cursor, poll.now), turns)
  }

  function RunAll(cfg: Config, src: seq<Incident>, polls: seq<Poll>): World {
    if polls == [] then START
    else RunOnce(cfg, src, RunAll(cfg, src, polls[..|polls| - 1]), polls[|polls| - 1])
  }
}
