/** The incident monitor as an object: run_once and _process working on a copy of the state blob
    and writing it back, proved against the steps on values. */
module MonitorService {
  import opened Numbers
  import opened Timestamps
  import opened PendingKeys
  import S = MonitorSteps

  class IncidentMonitor {
    const cfg: S.Config
    const source: seq<Incident>
    /** The durable state blob, absent before the first write. */
    var stored: Option<S.Blob>
    ghost var calls: seq<S.HandlerCall>
    ghost var outcomes: seq<S.Outcome>
    ghost var writes: seq<S.Write>

    function Blob(): S.Blob
      reads this
    {
      if stored.Some? then stored.value else S.NO_STATE
    }

    ghost function World(): S.World
      reads this
    {
      S.World(Blob(), calls, outcomes, writes)
    }

    constructor (cfg: S.Config, source: seq<Incident>)
      ensures World() == S.START && this.cfg == cfg && this.source == source
    {
      this.cfg, this.source, stored := cfg, source, None;
      calls, outcomes, writes := [], [], [];
    }

    method WriteState(state: S.Blob)
      modifies `stored, `writes
      ensures World() == S.Store(old(World()), state)
    {
      stored := Some(state);
      writes := writes + [S.Write(state, |outcomes|)];
    }

    /** _process: calls the handler for a pending entry and records the result; `state` is the copy
        run_once works on, which agrees with the blob whenever run_once goes on. */
    method Process(state0: S.Blob, e: S.Entry, fate: S.Fate) returns (state: S.Blob, go: bool)
      requires state0 == Blob()
      modifies this
      ensures (World(), go) == S.Process(cfg, old(World()), e, fate)
      ensures go ==> state == Blob()
    {
      state, go := state0, false;
      calls := calls + [S.HandlerCall(e.event, |outcomes|, fate)];
      if fate.Died? {
        return;
      }
      var c := CursorOf(e.event);
      if fate.Failed? {
        var attempts := e.attempts + 1;
        if attempts < cfg.maxAttempts {
          state := state.(pending := S.Put(state.pending, e.(attempts := attempts)));
          WriteState(state);
          return;
        }
        state := state.(dead := state.dead + [S.DeadLetter(c.timestamp, c.incidentId, attempts)]);
        state := state.(cursor := Some(c));
        state := state.(pending := S.Without(state.pending, e.key));
        outcomes := outcomes + [S.Outcome(e.event, true)];
        WriteState(state);
        return state, true;
      }
      if fate.LeaseLostMeanwhile? {
        return;
      }
      state := state.(cursor := Some(c));
      state := state.(pending := S.Without(state.pending, e.key));
      outcomes := outcomes + [S.Outcome(e.event, false)];
      WriteState(state);
      go := true;
    }

    /** run_once, with the turns its loops are given. */
    method RunOnce(poll: S.Poll)
      modifies this
      ensures World() == S.RunOnce(cfg, source, old(World()), poll)
    {
      var state := Blob();
      if !poll.subscribed {
        return;
      }
      var todo := poll.turns;
      var entries := S.Sorted(state.pending);
      while entries != []
        invariant state == Blob()
        invariant S.AfterPending(cfg, old(World()), poll) == S.ProcessPending(cfg, World(), entries, todo)
        decreases |entries|
      {
        if todo == [] || !todo[0].Handle? {
          return;
        }
        var go;
        state, go := Process(state, entries[0], todo[0].fate);
        if !go {
          return;
        }
        entries, todo := entries[1..], todo[1..];
      }
      var cursor := state.cursor;
      var events := S.Query(cfg, source, poll.visible, cursor, poll.now);
      while events != [] && todo != [] && !todo[0].StopBefore?
        invariant state == Blob()
        invariant S.RunOnce(cfg, source, old(World()), poll) == S.ProcessEvents(cfg, World(), cursor, events, todo)
        decreases |events|
      {
        var event := events[0];
        events := events[1..];
        var c := CursorOf(event);
        if cursor.Some? && !CursorLess(cursor.value, c) {
          continue;
        }
        var e := S.Entry(PendingKey(c), event, 0);
        state := state.(pending := S.Put(state.pending, e));
        WriteState(state);
        if todo[0].StopAfterEnqueue? {
          return;
        }
        var go;
        state, go := Process(state, e, todo[0].fate);
        if !go {
          return;
        }
        todo := todo[1..];
        cursor := Some(c);
      }
    }
  }
}
