/** The value of a telemetry trace at an instant: linear between up to three values, along legs
    that depend on the trace's note, with guards of one second against short legs. Instants are
    microseconds, as datetimes hold them. */
module Interpolation {
  import opened Numbers

  /** `note` is the trace's note in lower case; a duration of 0 counts as absent. */
  datatype Trace = Trace(values: seq<real>, note: string, duration: Option<int>)

  predicate Mentions(note: string, words: string) {
    words <= note || (note != "" && Mentions(note[1..], words))
  }

  predicate Spiky(note: string) {
    Mentions(note, "recover") || Mentions(note, "planned cycle") || Mentions(note, "spike")
  }

  function Least(x: real, y: real): real { if x <= y then x else y }

  function Greatest(x: real, y: real): real { if x >= y then x else y }

  /** (b - a).total_seconds(). */
  function Seconds(a: int, b: int): real { (b - a) as real / 1000000.0 }

  /** start + timedelta(seconds=s), which rounds to whole microseconds. */
  function Later(start: int, s: real): int { start + Round(s * 1000000.0) }

  /** min(max(x, 0), length) / scale. */
  function Ramp(x: real, length: real, scale: real): real
    requires scale > 0.0
  {
    Least(Greatest(x, 0.0), length) / scale
  }

  /** Where an instant lies: between values leg and leg + 1, at a fraction of the way. */
  datatype Position = Position(leg: nat, fraction: real)

  function Halves(from: int, middle: int, half: real, when: int): Position {
    var scale := Greatest(half, 1.0);
    if when <= middle then Position(0, Ramp(Seconds(from, when), half, scale))
    else Position(1, Ramp(Seconds(middle, when), half, scale))
  }

  function ByMidpoint(start: int, midpoint: int, end: int, when: int): Position {
    var first := Greatest(Seconds(start, midpoint), 1.0);
    var second := Greatest(Seconds(midpoint, end), 1.0);
    if when <= midpoint then Position(0, Ramp(Seconds(start, when), first, first))
    else Position(1, Ramp(Seconds(midpoint, when), second, second))
  }

  function DurationOr(t: Trace, default: real): real {
    if t.duration.Some? && t.duration.value != 0 then t.duration.value as real else default
  }

  function Locate(t: Trace, when: int, start: int, end: int): Position
    requires start < end
  {
    var total := Greatest(Seconds(start, end), 1.0);
    if |t.values| <= 2 then Position(0, Ramp(Seconds(start, when), total, total))
    else if Spiky(t.note) then
      var midpoint := Min(Later(start, DurationOr(t, total)), end);
      ByMidpoint(start, midpoint, end, when)
    else if Mentions(t.note, "progressive decline") then
      var lasting := DurationOr(t, Least(total.Floor as real, 900.0));
      var finish := Min(Later(start, lasting), end);
      var half := Greatest(Seconds(start, finish), 1.0) / 2.0;
      if when <= finish then Halves(start, Later(start, half), half, when) else Position(1, 1.0)
    else
      Halves(start, Later(start, total / 2.0), total / 2.0, when)
  }

  function Blend(a: real, b: real, p: real): real { a + (b - a) * p }

  /** Trace.value_at; a trace has at least one value. */
  function ValueAt(t: Trace, when: int, start: int, end: int): real
    requires t.values != []
  {
    if |t.values| == 1 || end <= start then t.values[0]
    else
      var p := Locate(t, when, start, end);
      LocateInRange(t, when, start, end);
      Blend(t.values[p.leg], t.values[p.leg + 1], p.fraction)
  }

  // ---- positions ----

  lemma RampInRange(x: real, length: real, scale: real)
    requires scale > 0.0 && 0.0 <= length <= scale
    ensures 0.0 <= Ramp(x, length, scale) <= 1.0
  {
    var n := Least(Greatest(x, 0.0), length);
    DivMonotone(0.0, n, scale);
    DivMonotone(n, scale, scale);
    DivSelf(scale);
  }

  lemma RampMonotone(x: real, y: real, length: real, scale: real)
    requires scale > 0.0 && x <= y
    ensures Ramp(x, length, scale) <= Ramp(y, length, scale)
  {
    DivMonotone(Least(Greatest(x, 0.0), length), Least(Greatest(y, 0.0), length), scale);
  }

  predicate Sound(p: Position, values: nat) {
    p.leg + 1 < values && p.leg <= 1 && 0.0 <= p.fraction <= 1.0
  }

  lemma HalvesInRange(from: int, middle: int, half: real, when: int)
    requires half >= 0.0
    ensures Sound(Halves(from, middle, half, when), 3)
  {
    RampInRange(Seconds(from, when), half, Greatest(half, 1.0));
    RampInRange(Seconds(middle, when), half, Greatest(half, 1.0));
  }

  lemma ByMidpointInRange(start: int, midpoint: int, end: int, when: int)
    ensures Sound(ByMidpoint(start, midpoint, end, when), 3)
  {
    var first, second := Greatest(Seconds(start, midpoint), 1.0), Greatest(Seconds(midpoint, end), 1.0);
    RampInRange(Seconds(start, when), first, first);
    RampInRange(Seconds(midpoint, when), second, second);
  }

  lemma LocateInRange(t: Trace, when: int, start: int, end: int)
    requires start < end && |t.values| >= 2
    ensures Sound(Locate(t, when, start, end), |t.values|)
  {
    var total := Greatest(Seconds(start, end), 1.0);
    if |t.values| <= 2 {
      RampInRange(Seconds(start, when), total, total);
    } else if Spiky(t.note) {
      ByMidpointInRange(start, Min(Later(start, DurationOr(t, total)), end), end, when);
    } else if Mentions(t.note, "progressive decline") {
      var finish := Min(Later(start, DurationOr(t, Least(total.Floor as real, 900.0))), end);
      var half := Greatest(Seconds(start, finish), 1.0) / 2.0;
      HalvesInRange(start, Later(start, half), half, when);
    } else {
      HalvesInRange(start, Later(start, total / 2.0), total / 2.0, when);
    }
  }

  predicate NotAfter(p: Position, q: Position) {
    p.leg < q.leg || (p.leg == q.leg && p.fraction <= q.fraction)
  }

  lemma HalvesMonotone(from: int, middle: int, half: real, when: int, then': int)
    requires when <= then'
    ensures NotAfter(Halves(from, middle, half, when), Halves(from, middle, half, then'))
  {
    RampMonotone(Seconds(from, when), Seconds(from, then'), half, Greatest(half, 1.0));
    RampMonotone(Seconds(middle, when), Seconds(middle, then'), half, Greatest(half, 1.0));
  }

  lemma ByMidpointMonotone(start: int, midpoint: int, end: int, when: int, then': int)
    requires when <= then'
    ensures NotAfter(ByMidpoint(start, midpoint, end, when), ByMidpoint(start, midpoint, end, then'))
  {
    var first, second := Greatest(Seconds(start, midpoint), 1.0), Greatest(Seconds(midpoint, end), 1.0);
    RampMonotone(Seconds(start, when), Seconds(start, then'), first, first);
    RampMonotone(Seconds(midpoint, when), Seconds(midpoint, then'), second, second);
  }

  /** Positions never go back, across leg boundaries and guards. */
  lemma LocateMonotone(t: Trace, when: int, then': int, start: int, end: int)
    requires start < end && |t.values| >= 2 && when <= then'
    ensures NotAfter(Locate(t, when, start, end), Locate(t, then', start, end))
  {
    var total := Greatest(Seconds(start, end), 1.0);
    if |t.values| <= 2 {
      RampMonotone(Seconds(start, when), Seconds(start, then'), total, total);
    } else if Spiky(t.note) {
      ByMidpointMonotone(start, Min(Later(start, DurationOr(t, total)), end), end, when, then');
    } else if Mentions(t.note, "progressive decline") {
      var finish := Min(Later(start, DurationOr(t, Least(total.Floor as real, 900.0))), end);
      var half := Greatest(Seconds(start, finish), 1.0) / 2.0;
      HalvesMonotone(start, Later(start, half), half, when, then');
      HalvesInRange(start, Later(start, half), half, when);
    } else {
      HalvesMonotone(start, Later(start, total / 2.0), total / 2.0, when, then');
    }
  }

  // ---- values ----

  lemma BlendBetween(a: real, b: real, p: real)
    requires 0.0 <= p <= 1.0
    ensures Least(a, b) <= Blend(a, b, p) <= Greatest(a, b)
  {
    BlendOrdered(a, b, 0.0, p);
    BlendOrdered(a, b, p, 1.0);
    assert (b - a) * 1.0 == b - a && (b - a) * 0.0 == 0.0;
    assert Blend(a, b, 1.0) == b && Blend(a, b, 0.0) == a;
  }

  lemma BlendOrdered(a: real, b: real, p: real, q: real)
    requires p <= q
    ensures a <= b ==> Blend(a, b, p) <= Blend(a, b, q)
    ensures a >= b ==> Blend(a, b, p) >= Blend(a, b, q)
  {
    var d := b - a;
    if d >= 0.0 {
      MulMonotone(p, q, d);
    } else {
      MulMonotone(p, q, -d);
      assert -d * p == -(d * p) && -d * q == -(d * q);
    }
  }

  predicate Within(x: real, values: seq<real>) {
    && (exists i :: 0 <= i < Min(3, |values|) && values[i] <= x)
    && (exists i :: 0 <= i < Min(3, |values|) && x <= values[i])
  }

  /** At every instant, in the window or outside, the value lies between the least and the greatest
      of the first three values. */
  lemma ValueIsBounded(t: Trace, when: int, start: int, end: int)
    requires t.values != []
    ensures Within(ValueAt(t, when, start, end), t.values)
  {
    if |t.values| == 1 || end <= start {
      assert t.values[0] <= ValueAt(t, when, start, end) <= t.values[0];
    } else {
      var p := Locate(t, when, start, end);
      LocateInRange(t, when, start, end);
      BlendBetween(t.values[p.leg], t.values[p.leg + 1], p.fraction);
      assert p.leg + 1 < Min(3, |t.values|);
    }
  }

  predicate Rising(v: seq<real>) { forall i :: 0 <= i < |v| - 1 && i < 2 ==> v[i] <= v[i + 1] }

  predicate Falling(v: seq<real>) { forall i :: 0 <= i < |v| - 1 && i < 2 ==> v[i] >= v[i + 1] }

  /** If the first three values rise (fall), the value never falls (rises) over time. */
  lemma ValueIsMonotone(t: Trace, when: int, then': int, start: int, end: int)
    requires t.values != [] && when <= then'
    ensures Rising(t.values) ==> ValueAt(t, when, start, end) <= ValueAt(t, then', start, end)
    ensures Falling(t.values) ==> ValueAt(t, when, start, end) >= ValueAt(t, then', start, end)
  {
    if |t.values| > 1 && start < end {
      var v, p, q := t.values, Locate(t, when, start, end), Locate(t, then', start, end);
      LocateInRange(t, when, start, end);
      LocateInRange(t, then', start, end);
      LocateMonotone(t, when, then', start, end);
      BlendBetween(v[p.leg], v[p.leg + 1], p.fraction);
      BlendBetween(v[q.leg], v[q.leg + 1], q.fraction);
      if p.leg == q.leg {
        BlendOrdered(v[p.leg], v[p.leg + 1], p.fraction, q.fraction);
      } else {
        assert p.leg == 0 && q.leg == 1;
        assert (Rising(v) ==> v[0] <= v[1] <= v[2]) && (Falling(v) ==> v[0] >= v[1] >= v[2]);
      }
    }
  }

  lemma RampEnds(x: real, length: real, scale: real)
    requires scale > 0.0 && length >= 0.0
    ensures x <= 0.0 ==> Ramp(x, length, scale) == 0.0
    ensures x >= length == scale ==> Ramp(x, length, scale) == 1.0
  {
    DivSelf(scale);
  }

  lemma HalvesStart(from: int, half: real, when: int)
    requires half >= 0.0 && when <= from
    ensures Halves(from, Later(from, half), half, when) == Position(0, 0.0)
  {
    LaterIsLater(from, half);
    RampEnds(Seconds(from, when), half, Greatest(half, 1.0));
  }

  /** Up to the start of the window the value is the first one. */
  lemma ValueBeforeStart(t: Trace, when: int, start: int, end: int)
    requires t.values != [] && when <= start && (t.duration.Some? ==> t.duration.value >= 0)
    ensures ValueAt(t, when, start, end) == t.values[0]
  {
    if |t.values| > 1 && start < end {
      var total := Greatest(Seconds(start, end), 1.0);
      if |t.values| == 2 {
        RampEnds(Seconds(start, when), total, total);
      } else if Spiky(t.note) {
        LaterIsLater(start, DurationOr(t, total));
        var first := Greatest(Seconds(start, Min(Later(start, DurationOr(t, total)), end)), 1.0);
        RampEnds(Seconds(start, when), first, first);
      } else if Mentions(t.note, "progressive decline") {
        var lasting := DurationOr(t, Least(total.Floor as real, 900.0));
        LaterIsLater(start, lasting);
        HalvesStart(start, Greatest(Seconds(start, Min(Later(start, lasting), end)), 1.0) / 2.0, when);
      } else {
        HalvesStart(start, total / 2.0, when);
      }
      assert Locate(t, when, start, end) == Position(0, 0.0);
    }
  }

  /** The last leg is not cut short by its guard of one second. */
  predicate Arrives(t: Trace, start: int, end: int)
    requires start < end
  {
    var total := Greatest(Seconds(start, end), 1.0);
    if |t.values| <= 2 then end + 1 - start >= 1000000
    else if Spiky(t.note) then end + 1 - Min(Later(start, DurationOr(t, total)), end) >= 1000000
    else if Mentions(t.note, "progressive decline") then true
    else end - start >= 2000000
  }

  /** From the first microsecond past the end of the window the last value is reached if and only if
      the last leg is not cut short. */
  lemma ArrivesExactly(t: Trace, start: int, end: int)
    requires start < end && |t.values| >= 2
    ensures Arrives(t, start, end) <==>
            forall when :: when > end ==> Locate(t, when, start, end) == Position(Min(3, |t.values|) - 2, 1.0)
  {
    ArrivesAt(t, end + 1, start, end);
    if Arrives(t, start, end) {
      forall when | when > end
        ensures Locate(t, when, start, end) == Position(Min(3, |t.values|) - 2, 1.0)
      {
        ArrivesAt(t, when, start, end);
      }
    }
  }

  lemma ArrivesAt(t: Trace, when: int, start: int, end: int)
    requires start < end < when && |t.values| >= 2
    ensures Arrives(t, start, end) ==> Locate(t, when, start, end) == Position(Min(3, |t.values|) - 2, 1.0)
    ensures when == end + 1 && !Arrives(t, start, end) ==> Locate(t, when, start, end).fraction < 1.0
  {
    var total := Greatest(Seconds(start, end), 1.0);
    if |t.values| == 2 {
      RampPast(Seconds(start, when), total, total);
    } else if Spiky(t.note) {
      var midpoint := Min(Later(start, DurationOr(t, total)), end);
      var second := Greatest(Seconds(midpoint, end), 1.0);
      RampPast(Seconds(midpoint, when), second, second);
    } else if !Mentions(t.note, "progressive decline") {
      HalvesPast(start, end, when);
    }
  }

  /** A ramp is at its end exactly if its length is its scale and has been covered. */
  lemma RampPast(x: real, length: real, scale: real)
    requires scale > 0.0 && length <= scale
    ensures x >= length == scale ==> Ramp(x, length, scale) == 1.0
    ensures x < scale || length < scale ==> Ramp(x, length, scale) < 1.0
  {
    var n := Least(Greatest(x, 0.0), length);
    if x >= length == scale {
      assert n == scale;
      DivSelf(scale);
    } else if x < scale || length < scale {
      DivBelowOne(n, scale);
    }
  }

  lemma HalvesPast(start: int, end: int, when: int)
    requires start < end < when
    ensures var half := Greatest(Seconds(start, end), 1.0) / 2.0;
            var p := Halves(start, Later(start, half), half, when);
            if end - start >= 2000000 then p == Position(1, 1.0) else p.fraction < 1.0
  {
    var half := Greatest(Seconds(start, end), 1.0) / 2.0;
    var middle := Later(start, half);
    RoundIsNearestEven(half * 1000000.0, middle - start);
    if end - start >= 2000000 {
      assert half * 1000000.0 == (end - start) as real / 2.0;
      assert middle < when && Seconds(middle, when) >= half >= 1.0;
    }
    RampPast(Seconds(start, when), half, Greatest(half, 1.0));
    RampPast(Seconds(middle, when), half, Greatest(half, 1.0));
  }

  /** Past the end of the window the value is the last of the first three, provided the last leg is not
      cut short. */
  lemma ValueAfterEnd(t: Trace, when: int, start: int, end: int)
    requires t.values != [] && when > end
    requires |t.values| > 1 ==> start < end && Arrives(t, start, end)
    ensures ValueAt(t, when, start, end) == t.values[Min(3, |t.values|) - 1]
  {
    if |t.values| > 1 {
      ArrivesAt(t, when, start, end);
    }
  }

  lemma LaterIsLater(start: int, s: real)
    requires s >= 0.0
    ensures Later(start, s) >= start
  {
    RoundWithin(s * 1000000.0, 0);
  }

  // ---- between the values ----

  /** A value lies `part` of `whole` of the way from a to b. */
  predicate Divides(x: real, a: real, b: real, part: real, whole: real) { (x - a) * whole == (b - a) * part }

  lemma {:induction false} BlendDivides(a: real, b: real, part: real, whole: real)
    requires whole > 0.0
    ensures Divides(Blend(a, b, part / whole), a, b, part, whole)
  {
    var d, q := b - a, part / whole;
    QuotientTimes(part, whole);
    assert d * q * whole == d * (q * whole);
  }

  /** A ramp that is not cut short rises evenly. */
  lemma {:induction false} RampIsEven(x: real, length: real)
    requires 0.0 <= x <= length && length >= 1.0
    ensures Ramp(x, length, length) == x / length && Ramp(x, length, Greatest(length, 1.0)) == x / length
  {
  }

  predicate StandsAt(note: string, words: string, i: nat) { i + |words| <= |note| && note[i..i + |words|] == words }

  predicate Includes(note: string, words: string) { exists i: nat :: i <= |note| && StandsAt(note, words, i) }

  lemma {:induction false} StandsAtTail(note: string, words: string, i: nat)
    requires note != ""
    ensures StandsAt(note[1..], words, i) <==> StandsAt(note, words, i + 1)
  {
    if i + 1 + |words| <= |note| {
      assert note[1..][i..i + |words|] == note[i + 1..i + 1 + |words|];
    }
  }

  /** Mentioning is containing. */
  lemma {:induction false} MentionsExactly(note: string, words: string)
    ensures Mentions(note, words) <==> Includes(note, words)
    decreases |note|
  {
    assert StandsAt(note, words, 0) <==> words <= note;
    if note != "" {
      MentionsExactly(note[1..], words);
      forall i: nat
        ensures StandsAt(note[1..], words, i) <==> StandsAt(note, words, i + 1)
      {
        StandsAtTail(note, words, i);
      }
      if Includes(note, words) && !(words <= note) {
        var i: nat :| i <= |note| && StandsAt(note, words, i);
        assert StandsAt(note[1..], words, i - 1);
      }
      if Includes(note[1..], words) {
        var i: nat :| i <= |note[1..]| && StandsAt(note[1..], words, i);
        assert StandsAt(note, words, i + 1);
      }
    }
  }

  /** Two values: evenly from the first to the second over a window of at least one second. */
  lemma {:induction false} TwoValuesAreEven(t: Trace, when: int, start: int, end: int)
    requires |t.values| == 2 && start <= when <= end && end - start >= 1000000
    ensures Divides(ValueAt(t, when, start, end), t.values[0], t.values[1], Seconds(start, when), Seconds(start, end))
  {
    RampIsEven(Seconds(start, when), Seconds(start, end));
    BlendDivides(t.values[0], t.values[1], Seconds(start, when), Seconds(start, end));
  }

  /** The middle of a trace that recovers, cycles or spikes: after its duration, or at the end. */
  function Turn(t: Trace, start: int, end: int): int {
    var length := match t.duration case Some(d) => (if d != 0 then d as real else Seconds(start, end)) case None => Seconds(start, end);
    var turn := start + Round(length * 1000000.0);
    if turn < end then turn else end
  }

  /** Such a trace goes evenly to its second value up to the turn, and evenly to its third from there. */
  lemma {:induction false} TurningTracesAreEven(t: Trace, when: int, start: int, end: int)
    requires |t.values| >= 3 && start <= when <= end && end - start >= 1000000
    requires Includes(t.note, "recover") || Includes(t.note, "planned cycle") || Includes(t.note, "spike")
    ensures var turn, v, x := Turn(t, start, end), t.values, ValueAt(t, when, start, end);
            && (when <= turn && turn - start >= 1000000 ==> Divides(x, v[0], v[1], Seconds(start, when), Seconds(start, turn)))
            && (when > turn && end - turn >= 1000000 ==> Divides(x, v[1], v[2], Seconds(turn, when), Seconds(turn, end)))
  {
    MentionsExactly(t.note, "recover");
    MentionsExactly(t.note, "planned cycle");
    MentionsExactly(t.note, "spike");
    var turn := Turn(t, start, end);
    assert Locate(t, when, start, end) == ByMidpoint(start, turn, end, when);
    LegsAreEven(t.values, start, turn, end, when);
  }

  lemma {:induction false} LegsAreEven(v: seq<real>, start: int, turn: int, end: int, when: int)
    requires |v| >= 3 && start <= when <= end
    ensures var p := ByMidpoint(start, turn, end, when);
            && 0 <= p.leg <= 1
            && var x := Blend(v[p.leg], v[p.leg + 1], p.fraction);
               (&& (when <= turn && turn - start >= 1000000 ==> Divides(x, v[0], v[1], Seconds(start, when), Seconds(start, turn)))
                && (when > turn && end - turn >= 1000000 ==> Divides(x, v[1], v[2], Seconds(turn, when), Seconds(turn, end))))
  {
    if when <= turn && turn - start >= 1000000 {
      RampIsEven(Seconds(start, when), Seconds(start, turn));
      BlendDivides(v[0], v[1], Seconds(start, when), Seconds(start, turn));
    } else if when > turn && end - turn >= 1000000 {
      RampIsEven(Seconds(turn, when), Seconds(turn, end));
      BlendDivides(v[1], v[2], Seconds(turn, when), Seconds(turn, end));
    }
  }

  /** Any other trace, unless it declines, spends half of its window on either leg. */
  lemma {:induction false} PlainTracesAreEven(t: Trace, when: int, start: int, end: int)
    requires |t.values| >= 3 && start <= when <= end && end - start >= 2000000 && (end - start) % 2 == 0
    requires !Includes(t.note, "recover") && !Includes(t.note, "planned cycle") && !Includes(t.note, "spike")
    requires !Includes(t.note, "progressive decline")
    ensures var half, v, x := (end - start) / 2, t.values, ValueAt(t, when, start, end);
            if when <= start + half then Divides(x, v[0], v[1], Seconds(start, when), Seconds(start, start + half))
            else Divides(x, v[1], v[2], Seconds(start + half, when), Seconds(start + half, end))
  {
    MentionsExactly(t.note, "recover");
    MentionsExactly(t.note, "planned cycle");
    MentionsExactly(t.note, "spike");
    MentionsExactly(t.note, "progressive decline");
    HalvesAreEven(t, when, start, end);
  }

  lemma {:induction false} HalvesAreEven(t: Trace, when: int, start: int, end: int)
    requires |t.values| >= 3 && start <= when <= end && end - start >= 2000000 && (end - start) % 2 == 0
    requires !Spiky(t.note) && !Mentions(t.note, "progressive decline")
    ensures var half, v, x := (end - start) / 2, t.values, ValueAt(t, when, start, end);
            if when <= start + half then Divides(x, v[0], v[1], Seconds(start, when), Seconds(start, start + half))
            else Divides(x, v[1], v[2], Seconds(start + half, when), Seconds(start + half, end))
  {
    var half, v := (end - start) / 2, t.values;
    var length := Seconds(start, end) / 2.0;
    assert length == Seconds(start, start + half) == Seconds(start + half, end);
    assert Round(half as real) == half;
    assert Later(start, length) == start + half;
    if when <= start + half {
      RampIsEven(Seconds(start, when), length);
      BlendDivides(v[0], v[1], Seconds(start, when), length);
    } else {
      RampIsEven(Seconds(start + half, when), length);
      BlendDivides(v[1], v[2], Seconds(start + half, when), length);
    }
  }

  /** A declining trace has declined after its duration, or else after the whole seconds of its window
      but a quarter of an hour at most, and half of its way after half of that time. */
  lemma {:induction false} DeclinesAreEven(t: Trace, when: int, start: int, end: int)
    requires |t.values| >= 3 && start <= when <= end && end - start >= 2000000 && t.duration == None
    requires !Includes(t.note, "recover") && !Includes(t.note, "planned cycle") && !Includes(t.note, "spike")
    requires Includes(t.note, "progressive decline")
    ensures var lasting := if end - start >= 900000000 then 900 else (end - start) / 1000000;
            var half, v, x := lasting * 500000, t.values, ValueAt(t, when, start, end);
            if when <= start + half then Divides(x, v[0], v[1], Seconds(start, when), Seconds(0, half))
            else if when <= start + 2 * half then Divides(x, v[1], v[2], Seconds(start + half, when), Seconds(0, half))
            else x == v[2]
  {
    MentionsExactly(t.note, "recover");
    MentionsExactly(t.note, "planned cycle");
    MentionsExactly(t.note, "spike");
    MentionsExactly(t.note, "progressive decline");
    DeclineIsEven(t, when, start, end);
  }

  lemma {:induction false} DeclineIsEven(t: Trace, when: int, start: int, end: int)
    requires |t.values| >= 3 && start <= when <= end && end - start >= 2000000 && t.duration == None
    requires !Spiky(t.note) && Mentions(t.note, "progressive decline")
    ensures var lasting := if end - start >= 900000000 then 900 else (end - start) / 1000000;
            var half, v, x := lasting * 500000, t.values, ValueAt(t, when, start, end);
            if when <= start + half then Divides(x, v[0], v[1], Seconds(start, when), Seconds(0, half))
            else if when <= start + 2 * half then Divides(x, v[1], v[2], Seconds(start + half, when), Seconds(0, half))
            else x == v[2]
  {
    var half, v := (if end - start >= 900000000 then 900 else (end - start) / 1000000) * 500000, t.values;
    DeclineLengths(start, end);
    var length := Seconds(0, half);
    assert Locate(t, when, start, end)
        == if when <= start + 2 * half then Halves(start, start + half, length, when) else Position(1, 1.0);
    if when <= start + half {
      RampIsEven(Seconds(start, when), length);
      BlendDivides(v[0], v[1], Seconds(start, when), length);
    } else if when <= start + 2 * half {
      RampIsEven(Seconds(start + half, when), length);
      BlendDivides(v[1], v[2], Seconds(start + half, when), length);
    } else {
      assert Blend(v[1], v[2], 1.0) == v[2];
    }
  }

  lemma {:induction false} DeclineLengths(start: int, end: int)
    requires end - start >= 2000000
    ensures var half := (if end - start >= 900000000 then 900 else (end - start) / 1000000) * 500000;
            var total := Greatest(Seconds(start, end), 1.0);
            var finish := Min(Later(start, Least(total.Floor as real, 900.0)), end);
            && finish == start + 2 * half && half >= 1000000
            && Greatest(Seconds(start, finish), 1.0) / 2.0 == Seconds(0, half)
            && Later(start, Seconds(0, half)) == start + half
  {
    var lasting := if end - start >= 900000000 then 900 else (end - start) / 1000000;
    WholeSeconds(end - start);
    assert Least(Greatest(Seconds(start, end), 1.0).Floor as real, 900.0) == lasting as real;
    assert Round(lasting as real * 1000000.0) == lasting * 1000000;
    assert Round(Seconds(0, lasting * 500000) * 1000000.0) == lasting * 500000;
  }

  lemma {:induction false} WholeSeconds(micros: nat)
    ensures (micros as real / 1000000.0).Floor == micros / 1000000
  {
    var q, r := micros / 1000000, micros % 1000000;
    assert micros as real == q as real * 1000000.0 + r as real;
    FloorDivBound(micros as real, 1000000.0, q);
    FloorDivBound(micros as real, 1000000.0, q + 1);
  }
}
