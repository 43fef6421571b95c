/** Cursor timestamps: UTC instants written as fixed-width RFC 3339 strings with microseconds,
    compared as strings by the monitor and as instants by the incident query. */
module Timestamps {
  import opened Numbers

  // ---- strings ----

  /** Python's string comparison: by code point, a proper prefix first. */
  predicate StrLess(a: string, b: string)
    decreases |a|
  {
    b != "" && (a == "" || a[0] < b[0] || (a[0] == b[0] && StrLess(a[1..], b[1..])))
  }

  lemma {:induction false} StrLessIrreflexive(a: string)
    ensures !StrLess(a, a)
    decreases |a|
  {
    if a != "" {
      StrLessIrreflexive(a[1..]);
    }
  }

  lemma {:induction false} StrLessTransitive(a: string, b: string, c: string)
    requires StrLess(a, b) && StrLess(b, c)
    ensures StrLess(a, c)
    decreases |a|
  {
    if a != "" && a[0] == b[0] && b[0] == c[0] {
      StrLessTransitive(a[1..], b[1..], c[1..]);
    }
  }

  lemma {:induction false} StrLessTotal(a: string, b: string)
    ensures StrLess(a, b) || a == b || StrLess(b, a)
    decreases |a|
  {
    if a != "" && b != "" && a[0] == b[0] {
      StrLessTotal(a[1..], b[1..]);
      assert a == [a[0]] + a[1..] && b == [b[0]] + b[1..];
    }
  }

  lemma {:induction false} StrLessConcat(a: string, x: string, b: string, y: string)
    requires |a| == |b|
    ensures StrLess(a + x, b + y) <==> StrLess(a, b) || (a == b && StrLess(x, y))
    decreases |a|
  {
    if a == "" {
      assert a + x == x && b + y == y;
    } else {
      assert (a + x)[1..] == a[1..] + x && (b + y)[1..] == b[1..] + y;
      StrLessConcat(a[1..], x, b[1..], y);
      assert a == [a[0]] + a[1..] && b == [b[0]] + b[1..];
    }
  }

  // ---- fixed-width decimal fields ----

  function Digit(d: int): char
    requires 0 <= d < 10
  {
    (d + '0' as int) as char
  }

  function DigitValue(c: char): int { c as int - '0' as int }

  predicate IsDigit(c: char) { '0' <= c <= '9' }

  function Pow10(w: nat): nat { if w == 0 then 1 else 10 * Pow10(w - 1) }

  function Pad(n: nat, w: nat): (s: string)
    ensures |s| == w
  {
    if w == 0 then "" else Pad(n / 10, w - 1) + [Digit(n % 10)]
  }

  function Value(s: string): int {
    if s == "" then 0 else Value(s[..|s| - 1]) * 10 + DigitValue(s[|s| - 1])
  }

  lemma {:induction false} ValueOfPad(n: nat, w: nat)
    requires n < Pow10(w)
    ensures Value(Pad(n, w)) == n && forall i :: 0 <= i < w ==> IsDigit(Pad(n, w)[i])
  {
    if w > 0 {
      ValueOfPad(n / 10, w - 1);
      assert Pad(n, w)[..w - 1] == Pad(n / 10, w - 1);
    }
  }

  lemma {:induction false} PadOfValue(s: string)
    requires forall i :: 0 <= i < |s| ==> IsDigit(s[i])
    ensures 0 <= Value(s) < Pow10(|s|) && Pad(Value(s), |s|) == s
    decreases |s|
  {
    if s != "" {
      PadOfValue(s[..|s| - 1]);
      assert Value(s) / 10 == Value(s[..|s| - 1]) && Value(s) % 10 == DigitValue(s[|s| - 1]);
      assert s == s[..|s| - 1] + [s[|s| - 1]];
    }
  }

  lemma {:induction false} PadOrder(n: nat, m: nat, w: nat)
    requires n < Pow10(w) && m < Pow10(w)
    ensures StrLess(Pad(n, w), Pad(m, w)) <==> n < m
    ensures Pad(n, w) == Pad(m, w) <==> n == m
  {
    if w > 0 {
      PadOrder(n / 10, m / 10, w - 1);
      PadOrderStep(Pad(n / 10, w - 1), n % 10, Pad(m / 10, w - 1), m % 10);
    }
    ValueOfPad(n, w);
    ValueOfPad(m, w);
  }

  lemma PadOrderStep(s: string, d: int, t: string, e: int)
    requires |s| == |t| && 0 <= d < 10 && 0 <= e < 10
    ensures StrLess(s + [Digit(d)], t + [Digit(e)]) <==> StrLess(s, t) || (s == t && d < e)
  {
    StrLessConcat(s, [Digit(d)], t, [Digit(e)]);
    StrLessIrreflexive("");
  }

  /** A field: its number of digits and what follows it. */
  datatype Field = Field(width: nat, tail: string)

  predicate Fits(vs: seq<nat>, layout: seq<Field>) {
    |vs| == |layout| && forall i :: 0 <= i < |vs| ==> vs[i] < Pow10(layout[i].width)
  }

  function Encode(vs: seq<nat>, layout: seq<Field>): string
    requires |vs| == |layout|
  {
    if vs == [] then "" else Pad(vs[0], layout[0].width) + layout[0].tail + Encode(vs[1..], layout[1..])
  }

  function Decode(s: string, layout: seq<Field>): Option<seq<nat>>
    decreases |layout|
  {
    if layout == [] then (if s == "" then Some([]) else None)
    else
      var f := layout[0];
      var end := f.width + |f.tail|;
      if |s| < end || (exists i :: 0 <= i < f.width && !IsDigit(s[i])) || s[f.width..end] != f.tail then None
      else
        PadOfValue(s[..f.width]);
        var rest := Decode(s[end..], layout[1..]);
        if rest.None? then None else Some([Value(s[..f.width])] + rest.value)
  }

  predicate LexLess(a: seq<nat>, b: seq<nat>)
    requires |a| == |b|
    decreases |a|
  {
    a != [] && (a[0] < b[0] || (a[0] == b[0] && LexLess(a[1..], b[1..])))
  }

  lemma {:induction false} EncodeOrder(a: seq<nat>, b: seq<nat>, layout: seq<Field>)
    requires Fits(a, layout) && Fits(b, layout)
    ensures StrLess(Encode(a, layout), Encode(b, layout)) <==> LexLess(a, b)
    ensures |Encode(a, layout)| == |Encode(b, layout)|
    decreases |a|
  {
    if a != [] {
      var f := layout[0];
      var p, q := Pad(a[0], f.width), Pad(b[0], f.width);
      EncodeOrder(a[1..], b[1..], layout[1..]);
      PadOrder(a[0], b[0], f.width);
      StrLessConcat(p, f.tail, q, f.tail);
      StrLessIrreflexive(f.tail);
      StrLessConcat(p + f.tail, Encode(a[1..], layout[1..]), q + f.tail, Encode(b[1..], layout[1..]));
      assert p + f.tail == q + f.tail ==> p == (p + f.tail)[..f.width] == q;
    }
  }

  lemma {:induction false} DecodeOfEncode(vs: seq<nat>, layout: seq<Field>)
    requires Fits(vs, layout)
    ensures Decode(Encode(vs, layout), layout) == Some(vs)
    decreases |vs|
  {
    if vs != [] {
      var f, s := layout[0], Encode(vs, layout);
      var p, rest := Pad(vs[0], f.width), Encode(vs[1..], layout[1..]);
      assert s == p + f.tail + rest;
      DecodeOfEncode(vs[1..], layout[1..]);
      ValueOfPad(vs[0], f.width);
      assert s[..f.width] == p && s[f.width..f.width + |f.tail|] == f.tail && s[f.width + |f.tail|..] == rest;
      assert forall i :: 0 <= i < f.width ==> s[i] == p[i];
      assert [vs[0]] + vs[1..] == vs;
    }
  }

  lemma {:induction false} EncodeOfDecode(s: string, layout: seq<Field>)
    requires Decode(s, layout).Some?
    ensures Fits(Decode(s, layout).value, layout) && Encode(Decode(s, layout).value, layout) == s
    decreases |layout|
  {
    if layout != [] {
      var f := layout[0];
      var end := f.width + |f.tail|;
      PadOfValue(s[..f.width]);
      EncodeOfDecode(s[end..], layout[1..]);
      var vs, rest := Decode(s, layout).value, Decode(s[end..], layout[1..]).value;
      assert vs == [Value(s[..f.width])] + rest;
      assert vs[1..] == rest;
    }
  }

  // ---- the calendar ----

  datatype DateTime = DateTime(year: nat, month: nat, day: nat, hour: nat, minute: nat, second: nat, micro: nat)

  predicate IsLeap(y: int) { y % 4 == 0 && (y % 100 != 0 || y % 400 == 0) }

  function DaysInMonth(y: int, m: int): int {
    if m == 2 then (if IsLeap(y) then 29 else 28)
    else if m == 4 || m == 6 || m == 9 || m == 11 then 30
    else 31
  }

  predicate ValidDateTime(t: DateTime) {
    && 1 <= t.year <= 9999 && 1 <= t.month <= 12 && 1 <= t.day <= DaysInMonth(t.year, t.month)
    && t.hour < 24 && t.minute < 60 && t.second < 60 && t.micro < 1000000
  }

  function DaysBeforeYear(y: nat): int
    requires y >= 1
  {
    (y - 1) * 365 + (y - 1) / 4 - (y - 1) / 100 + (y - 1) / 400
  }

  function DaysBeforeMonth(y: nat, m: nat): int
    requires 1 <= m
  {
    if m == 1 then 0 else DaysBeforeMonth(y, m - 1) + DaysInMonth(y, m - 1)
  }

  /** Days since the day before 0001-01-01 in the proleptic Gregorian calendar. */
  function Ordinal(t: DateTime): int
    requires ValidDateTime(t)
  {
    DaysBeforeYear(t.year) + DaysBeforeMonth(t.year, t.month) + t.day
  }

  /** Microseconds since the midnight before 0001-01-01. */
  function Instant(t: DateTime): int
    requires ValidDateTime(t)
  {
    (((Ordinal(t) * 24 + t.hour) * 60 + t.minute) * 60 + t.second) * 1000000 + t.micro
  }

  function Fields(t: DateTime): seq<nat> { [t.year, t.month, t.day, t.hour, t.minute, t.second, t.micro] }

  lemma DivUnique(n: int, k: int, q: int, r: int)
    requires k >= 1 && n == k * q + r && 0 <= r < k
    ensures n / k == q && n % k == r
  {
    var d := n / k - q;
    assert k * d == r - n % k;
    MultiplesAreApart(k, d);
  }

  lemma MultiplesAreApart(k: int, d: int)
    requires k >= 1
    ensures d >= 1 ==> k * d >= k
    ensures d <= -1 ==> k * d <= -k
  {
    if d >= 1 {
      assert k * (d - 1) >= 0;
    } else if d <= -1 {
      assert k * (-1 - d) >= 0;
    }
  }

  lemma DivStep(n: nat, k: nat)
    requires k >= 1
    ensures (n + 1) / k == n / k + (if (n + 1) % k == 0 then 1 else 0)
  {
    var q, r := n / k, n % k;
    if r + 1 == k {
      DivUnique(n + 1, k, q + 1, 0);
    } else {
      DivUnique(n + 1, k, q, r + 1);
    }
  }

  lemma MultipleOf(n: nat, k: nat, j: nat)
    requires k >= 1 && j >= 1 && n % (k * j) == 0
    ensures n % k == 0
  {
    var q := n / (k * j);
    assert n == k * (j * q);
    DivUnique(n, k, j * q, 0);
  }

  lemma YearStep(y: nat)
    requires y >= 1
    ensures DaysBeforeYear(y + 1) == DaysBeforeYear(y) + 365 + (if IsLeap(y) then 1 else 0)
  {
    DivStep(y - 1, 4);
    DivStep(y - 1, 100);
    DivStep(y - 1, 400);
    if y % 400 == 0 {
      MultipleOf(y, 100, 4);
    }
    if y % 100 == 0 {
      MultipleOf(y, 4, 25);
    }
  }

  lemma {:induction false} YearsGrow(y: nat, z: nat)
    requires 1 <= y < z
    ensures DaysBeforeYear(y) + 365 + (if IsLeap(y) then 1 else 0) <= DaysBeforeYear(z)
    decreases z - y
  {
    YearStep(y);
    if y + 1 < z {
      YearsGrow(y + 1, z);
    }
  }

  lemma {:induction false} MonthsGrow(y: nat, m: nat, n: nat)
    requires 1 <= m < n
    ensures DaysBeforeMonth(y, m) + DaysInMonth(y, m) <= DaysBeforeMonth(y, n)
    decreases n
  {
    if m + 1 < n {
      MonthsGrow(y, m, n - 1);
    }
  }

  lemma YearLength(y: nat)
    ensures DaysBeforeMonth(y, 12) + DaysInMonth(y, 12) == 365 + (if IsLeap(y) then 1 else 0)
  {
    assert DaysBeforeMonth(y, 2) == 31;
    assert DaysBeforeMonth(y, 3) == 31 + DaysInMonth(y, 2);
    assert DaysBeforeMonth(y, 4) == 62 + DaysInMonth(y, 2);
    assert DaysBeforeMonth(y, 5) == 92 + DaysInMonth(y, 2);
    assert DaysBeforeMonth(y, 6) == 123 + DaysInMonth(y, 2);
    assert DaysBeforeMonth(y, 7) == 153 + DaysInMonth(y, 2);
    assert DaysBeforeMonth(y, 8) == 184 + DaysInMonth(y, 2);
    assert DaysBeforeMonth(y, 9) == 215 + DaysInMonth(y, 2);
    assert DaysBeforeMonth(y, 10) == 245 + DaysInMonth(y, 2);
    assert DaysBeforeMonth(y, 11) == 276 + DaysInMonth(y, 2);
    assert DaysBeforeMonth(y, 12) == 306 + DaysInMonth(y, 2);
  }

  lemma DateOrder(a: DateTime, b: DateTime)
    requires ValidDateTime(a) && ValidDateTime(b)
    requires a.year < b.year || (a.year == b.year && (a.month < b.month || (a.month == b.month && a.day < b.day)))
    ensures Ordinal(a) < Ordinal(b)
  {
    if a.year < b.year {
      YearsGrow(a.year, b.year);
      YearLength(a.year);
      if a.month < 12 {
        MonthsGrow(a.year, a.month, 12);
      }
      if 1 < b.month {
        MonthsGrow(b.year, 1, b.month);
      }
    } else if a.month < b.month {
      MonthsGrow(a.year, a.month, b.month);
    }
  }

  lemma LexFields(a: DateTime, b: DateTime)
    ensures LexLess(Fields(a), Fields(b)) <==>
            || a.year < b.year
            || (a.year == b.year && (a.month < b.month || (a.month == b.month && (a.day < b.day || (a.day == b.day &&
               (a.hour < b.hour || (a.hour == b.hour && (a.minute < b.minute || (a.minute == b.minute &&
               (a.second < b.second || (a.second == b.second && a.micro < b.micro)))))))))))
  {
    LexClock(a, b);
    LexCons(a.year, [a.month, a.day] + Clock(a), b.year, [b.month, b.day] + Clock(b));
    LexCons(a.month, [a.day] + Clock(a), b.month, [b.day] + Clock(b));
    LexCons(a.day, Clock(a), b.day, Clock(b));
    FieldsSplit(a);
    FieldsSplit(b);
  }

  function Clock(t: DateTime): seq<nat> { [t.hour, t.minute, t.second, t.micro] }

  lemma FieldsSplit(t: DateTime)
    ensures Fields(t) == [t.year] + ([t.month, t.day] + Clock(t))
    ensures [t.month, t.day] + Clock(t) == [t.month] + ([t.day] + Clock(t))
  {
  }

  lemma LexClock(a: DateTime, b: DateTime)
    ensures LexLess(Clock(a), Clock(b)) <==>
            a.hour < b.hour || (a.hour == b.hour && (a.minute < b.minute || (a.minute == b.minute &&
            (a.second < b.second || (a.second == b.second && a.micro < b.micro)))))
  {
    LexCons(a.hour, [a.minute, a.second, a.micro], b.hour, [b.minute, b.second, b.micro]);
    LexCons(a.minute, [a.second, a.micro], b.minute, [b.second, b.micro]);
    LexCons(a.second, [a.micro], b.second, [b.micro]);
    LexCons(a.micro, [], b.micro, []);
  }

  lemma LexCons(x: nat, xs: seq<nat>, y: nat, ys: seq<nat>)
    requires |xs| == |ys|
    ensures LexLess([x] + xs, [y] + ys) <==> x < y || (x == y && LexLess(xs, ys))
  {
    assert ([x] + xs)[1..] == xs && ([y] + ys)[1..] == ys;
  }

  /** Comparing fields one after the other is comparing instants. */
  lemma FieldsOrderTime(a: DateTime, b: DateTime)
    requires ValidDateTime(a) && ValidDateTime(b)
    ensures LexLess(Fields(a), Fields(b)) <==> Instant(a) < Instant(b)
    ensures Instant(a) == Instant(b) <==> a == b
  {
    LexFields(a, b);
    LexFields(b, a);
    if (a.year, a.month, a.day) != (b.year, b.month, b.day) {
      if a.year < b.year || (a.year == b.year && (a.month < b.month || (a.month == b.month && a.day < b.day))) {
        DateOrder(a, b);
      } else {
        DateOrder(b, a);
      }
    }
  }

  // ---- the ISO form ----

  const LAYOUT: seq<Field> := [
    Field(4, "-"), Field(2, "-"), Field(2, "T"), Field(2, ":"), Field(2, ":"), Field(2, "."), Field(6, "Z")]

  /** _iso: YYYY-MM-DDTHH:MM:SS.ffffffZ. */
  function Iso(t: DateTime): string { Encode(Fields(t), LAYOUT) }

  /** _as_utc on a string of that form. */
  function Parse(s: string): Option<DateTime> {
    var vs := Decode(s, LAYOUT);
    if vs.None? || |vs.value| != 7 then None
    else
      var t := DateTime(vs.value[0], vs.value[1], vs.value[2], vs.value[3], vs.value[4], vs.value[5], vs.value[6]);
      if ValidDateTime(t) then Some(t) else None
  }

  lemma FieldsFit(t: DateTime)
    requires ValidDateTime(t)
    ensures Fits(Fields(t), LAYOUT)
  {
    assert Pow10(2) == 100 && Pow10(4) == 10000;
    assert Pow10(6) == 100 * Pow10(4);
  }

  /** ISO strings order as instants do, and equal strings are equal instants. */
  lemma IsoOrdersTime(a: DateTime, b: DateTime)
    requires ValidDateTime(a) && ValidDateTime(b)
    ensures StrLess(Iso(a), Iso(b)) <==> Instant(a) < Instant(b)
    ensures Iso(a) == Iso(b) <==> Instant(a) == Instant(b)
  {
    FieldsFit(a);
    FieldsFit(b);
    EncodeOrder(Fields(a), Fields(b), LAYOUT);
    FieldsOrderTime(a, b);
    IsoRoundTrip(a);
    IsoRoundTrip(b);
  }

  /** Writing an instant and reading it back gives the same instant, so _iso is idempotent. */
  lemma IsoRoundTrip(t: DateTime)
    requires ValidDateTime(t)
    ensures Parse(Iso(t)) == Some(t)
  {
    FieldsFit(t);
    DecodeOfEncode(Fields(t), LAYOUT);
  }

  /** A string that parses is the ISO form of what it parses to. */
  lemma ParseIsExact(s: string)
    requires Parse(s).Some?
    ensures ValidDateTime(Parse(s).value) && Iso(Parse(s).value) == s
  {
    EncodeOfDecode(s, LAYOUT);
    SevenFields(Decode(s, LAYOUT).value, Parse(s).value);
  }

  lemma SevenFields(vs: seq<nat>, t: DateTime)
    requires |vs| == 7 && t == DateTime(vs[0], vs[1], vs[2], vs[3], vs[4], vs[5], vs[6])
    ensures Fields(t) == vs
  {
  }

  // ---- cursors ----

  datatype Cursor = Cursor(timestamp: string, incidentId: string)

  datatype Incident = Incident(at: DateTime, id: string)

  function CursorOf(e: Incident): Cursor { Cursor(Iso(e.at), e.id) }

  /** The dataclass order: field by field, as strings. */
  predicate CursorLess(a: Cursor, b: Cursor) {
    StrLess(a.timestamp, b.timestamp) || (a.timestamp == b.timestamp && StrLess(a.incidentId, b.incidentId))
  }

  /** The cursor filter of the query: a later instant, or the same one and a larger id. */
  predicate QuerySelects(c: Cursor, e: Incident)
    requires ValidDateTime(e.at) && Parse(c.timestamp).Some?
  {
    ParseIsExact(c.timestamp);
    var since := Instant(Parse(c.timestamp).value);
    Instant(e.at) > since || (Instant(e.at) == since && StrLess(c.incidentId, e.id))
  }

  /** Cursor order is (instant, id) order. */
  lemma CursorOrderIsTimeOrder(a: Incident, b: Incident)
    requires ValidDateTime(a.at) && ValidDateTime(b.at)
    ensures CursorLess(CursorOf(a), CursorOf(b)) <==>
            Instant(a.at) < Instant(b.at) || (Instant(a.at) == Instant(b.at) && StrLess(a.id, b.id))
  {
    IsoOrdersTime(a.at, b.at);
  }

  /** The query asks for exactly the incidents whose cursor is beyond the given one. */
  lemma QueryMatchesCursorOrder(c: Cursor, e: Incident)
    requires ValidDateTime(e.at) && Parse(c.timestamp).Some?
    ensures QuerySelects(c, e) <==> CursorLess(c, CursorOf(e))
  {
    ParseIsExact(c.timestamp);
    IsoOrdersTime(Parse(c.timestamp).value, e.at);
  }

  // ---- the form itself ----

  const CLOCK: seq<Field> := [Field(2, ":"), Field(2, ":"), Field(2, "."), Field(6, "Z")]

  lemma {:induction false} EncodeCons(v: nat, vs: seq<nat>, f: Field, layout: seq<Field>)
    requires |vs| == |layout|
    ensures Encode([v] + vs, [f] + layout) == Pad(v, f.width) + f.tail + Encode(vs, layout)
  {
    assert ([v] + vs)[1..] == vs && ([f] + layout)[1..] == layout;
  }

  lemma {:induction false} ClockForm(t: DateTime)
    ensures Encode(Clock(t), CLOCK) == Pad(t.hour, 2) + ":" + (Pad(t.minute, 2) + ":" + (Pad(t.second, 2) + "." + (Pad(t.micro, 6) + "Z")))
  {
    EncodeCons(t.hour, [t.minute, t.second, t.micro], CLOCK[0], CLOCK[1..]);
    EncodeCons(t.minute, [t.second, t.micro], CLOCK[1], CLOCK[2..]);
    EncodeCons(t.second, [t.micro], CLOCK[2], CLOCK[3..]);
    EncodeCons(t.micro, [], CLOCK[3], []);
    assert CLOCK == [CLOCK[0]] + CLOCK[1..] && CLOCK[1..] == [CLOCK[1]] + CLOCK[2..];
    assert CLOCK[2..] == [CLOCK[2]] + CLOCK[3..] && CLOCK[3..] == [CLOCK[3]] + [];
    assert Pad(t.micro, 6) + "Z" + "" == Pad(t.micro, 6) + "Z";
  }

  /** The fields of an instant, with all their digits, and the marks between them. */
  lemma {:induction false} IsoForm(t: DateTime)
    ensures Iso(t) == Pad(t.year, 4) + "-" + (Pad(t.month, 2) + "-" + (Pad(t.day, 2) + "T"
                      + (Pad(t.hour, 2) + ":" + (Pad(t.minute, 2) + ":" + (Pad(t.second, 2) + "." + (Pad(t.micro, 6) + "Z"))))))
  {
    FieldsSplit(t);
    ClockForm(t);
    EncodeCons(t.year, [t.month, t.day] + Clock(t), LAYOUT[0], LAYOUT[1..]);
    EncodeCons(t.month, [t.day] + Clock(t), LAYOUT[1], LAYOUT[2..]);
    EncodeCons(t.day, Clock(t), LAYOUT[2], CLOCK);
    assert LAYOUT == [LAYOUT[0]] + LAYOUT[1..] && LAYOUT[1..] == [LAYOUT[1]] + LAYOUT[2..] && LAYOUT[2..] == [LAYOUT[2]] + CLOCK;
  }

  /** Digits are decimal ones, the last of a field stands for the units, and the others for the tens. */
  lemma {:induction false} PadIsDecimal(n: nat, w: nat)
    requires w >= 1
    ensures |Pad(n, w)| == w && Pad(n, w)[w - 1] == "0123456789"[n % 10] && Pad(n, w)[..w - 1] == Pad(n / 10, w - 1)
  {
    var d := n % 10;
    assert Digit(d) == "0123456789"[d];
  }

  // ---- cursor order is total ----

  lemma {:induction false} CursorLessTransitive(a: Cursor, b: Cursor, c: Cursor)
    requires CursorLess(a, b) && CursorLess(b, c)
    ensures CursorLess(a, c)
  {
    if StrLess(a.timestamp, b.timestamp) && StrLess(b.timestamp, c.timestamp) {
      StrLessTransitive(a.timestamp, b.timestamp, c.timestamp);
    } else if a.timestamp == b.timestamp == c.timestamp {
      StrLessTransitive(a.incidentId, b.incidentId, c.incidentId);
    }
  }

  lemma {:induction false} CursorLessTotal(a: Cursor, b: Cursor)
    ensures CursorLess(a, b) || a == b || CursorLess(b, a)
  {
    StrLessTotal(a.timestamp, b.timestamp);
    StrLessTotal(a.incidentId, b.incidentId);
  }
}
