/** Keys of pending work: the URL-safe base64 form, without padding, of the UTF-8 bytes of the
    timestamp, a newline and the incident id. Distinct cursors get distinct keys. */
module PendingKeys {
  import opened Timestamps

  function Utf8Char(c: char): seq<int> {
    var n := c as int;
    if n < 0x80 then [n]
    else if n < 0x800 then [0xC0 + n / 64, 0x80 + n % 64]
    else if n < 0x1_0000 then [0xE0 + n / 4096, 0x80 + n / 64 % 64, 0x80 + n % 64]
    else [0xF0 + n / 262144, 0x80 + n / 4096 % 64, 0x80 + n / 64 % 64, 0x80 + n % 64]
  }

  function Utf8(s: string): seq<int> {
    if s == "" then [] else Utf8Char(s[0]) + Utf8(s[1..])
  }

  predicate IsBytes(bs: seq<int>) { forall i :: 0 <= i < |bs| ==> 0 <= bs[i] < 256 }

  /** The URL-safe alphabet of RFC 4648, section 5. */
  function Char64(i: int): char
    requires 0 <= i < 64
  {
    if i < 26 then ('A' as int + i) as char
    else if i < 52 then ('a' as int + i - 26) as char
    else if i < 62 then ('0' as int + i - 52) as char
    else if i == 62 then '-'
    else '_'
  }

  function Base64(bs: seq<int>): string
    requires IsBytes(bs)
  {
    if bs == [] then ""
    else if |bs| == 1 then [Char64(bs[0] / 4), Char64(bs[0] % 4 * 16)] + "=="
    else if |bs| == 2 then
      [Char64(bs[0] / 4), Char64(bs[0] % 4 * 16 + bs[1] / 16), Char64(bs[1] % 16 * 4)] + "="
    else Quad(bs[0], bs[1], bs[2]) + Base64(bs[3..])
  }

  function Quad(a: int, b: int, c: int): string
    requires 0 <= a < 256 && 0 <= b < 256 && 0 <= c < 256
  {
    [Char64(a / 4), Char64(a % 4 * 16 + b / 16), Char64(b % 16 * 4 + c / 64), Char64(c % 64)]
  }

  /** Python's rstrip("="). */
  function RStrip(s: string): string {
    if s != "" && s[|s| - 1] == '=' then RStrip(s[..|s| - 1]) else s
  }

  function PendingKey(c: Cursor): string {
    Utf8Bytes(c.timestamp + "\n" + c.incidentId);
    RStrip(Base64(Utf8(c.timestamp + "\n" + c.incidentId)))
  }

  // ---- UTF-8 is injective ----

  lemma {:induction false} Utf8Bytes(s: string)
    ensures IsBytes(Utf8(s))
    decreases |s|
  {
    if s != "" {
      Utf8Bytes(s[1..]);
    }
  }

  /** The first byte tells the length, and the bytes tell the character. */
  lemma Utf8CharIsPrefixFree(c: char, x: seq<int>, d: char, y: seq<int>)
    requires Utf8Char(c) + x == Utf8Char(d) + y
    ensures c == d && x == y
  {
    var u, v := Utf8Char(c) + x, Utf8Char(d) + y;
    assert u[0] == Utf8Char(c)[0] && v[0] == Utf8Char(d)[0];
    assert |Utf8Char(c)| == |Utf8Char(d)|;
    assert Utf8Char(c) == u[..|Utf8Char(c)|] == v[..|Utf8Char(d)|] == Utf8Char(d);
    assert x == u[|Utf8Char(c)|..] == v[|Utf8Char(d)|..] == y;
    Utf8CharInjective(c, d);
  }

  lemma Utf8CharInjective(c: char, d: char)
    requires Utf8Char(c) == Utf8Char(d)
    ensures c == d
  {
    var n, m := c as int, d as int;
    Split64(n);
    Split64(m);
    Split64(n / 64);
    Split64(m / 64);
    Split64(n / 64 / 64);
    Split64(m / 64 / 64);
  }

  lemma Split64(n: int)
    requires n >= 0
    ensures n == 64 * (n / 64) + n % 64
    ensures n / 64 / 64 == n / 4096 && n / 4096 / 64 == n / 262144
  {
  }

  lemma {:induction false} Utf8Injective(s: string, t: string)
    requires Utf8(s) == Utf8(t)
    ensures s == t
    decreases |s|
  {
    if s != "" && t != "" {
      Utf8CharIsPrefixFree(s[0], Utf8(s[1..]), t[0], Utf8(t[1..]));
      Utf8Injective(s[1..], t[1..]);
      assert s == [s[0]] + s[1..] && t == [t[0]] + t[1..];
    }
  }

  // ---- base64 without padding is injective ----

  lemma Char64Injective(i: int, j: int)
    requires 0 <= i < 64 && 0 <= j < 64
    ensures Char64(i) == Char64(j) <==> i == j
    ensures Char64(i) != '='
  {
  }

  /** What RStrip leaves of Base64. */
  function Bare(bs: seq<int>): string
    requires IsBytes(bs)
  {
    if bs == [] then ""
    else if |bs| == 1 then [Char64(bs[0] / 4), Char64(bs[0] % 4 * 16)]
    else if |bs| == 2 then
      [Char64(bs[0] / 4), Char64(bs[0] % 4 * 16 + bs[1] / 16), Char64(bs[1] % 16 * 4)]
    else Quad(bs[0], bs[1], bs[2]) + Bare(bs[3..])
  }

  lemma StripsPadding(s: string)
    requires s != "" && s[|s| - 1] != '='
    ensures RStrip(s) == RStrip(s + "=") == RStrip(s + "==") == s
  {
    assert (s + "=")[..|s|] == s && (s + "==")[..|s| + 1] == s + "=";
  }

  lemma StripLeavesTail(bs: seq<int>, prefix: string)
    requires IsBytes(bs) && 1 <= |bs| <= 2
    ensures RStrip(prefix + Base64(bs)) == prefix + Bare(bs)
  {
    if |bs| == 2 {
      Char64Injective(bs[1] % 16 * 4, 0);
      assert prefix + Base64(bs) == (prefix + Bare(bs)) + "=";
    } else {
      Char64Injective(bs[0] % 4 * 16, 0);
      assert prefix + Base64(bs) == (prefix + Bare(bs)) + "==";
    }
    StripsPadding(prefix + Bare(bs));
  }

  lemma {:induction false} StripLeavesBare(bs: seq<int>, prefix: string)
    requires IsBytes(bs) && (bs == [] ==> prefix == "" || prefix[|prefix| - 1] != '=')
    ensures RStrip(prefix + Base64(bs)) == prefix + Bare(bs)
    decreases |bs|
  {
    if bs == [] {
      assert prefix + "" == prefix;
    } else if |bs| <= 2 {
      StripLeavesTail(bs, prefix);
    } else {
      var quad := Quad(bs[0], bs[1], bs[2]);
      Char64Injective(bs[2] % 64, 0);
      StripLeavesBare(bs[3..], prefix + quad);
      Regroup(prefix, quad, Base64(bs[3..]));
      Regroup(prefix, quad, Bare(bs[3..]));
    }
  }

  lemma Regroup(a: string, b: string, c: string)
    ensures (a + b) + c == a + (b + c)
  {
  }

  lemma QuadInjective(a: int, b: int, c: int, a': int, b': int, c': int)
    requires 0 <= a < 256 && 0 <= b < 256 && 0 <= c < 256 && 0 <= a' < 256 && 0 <= b' < 256 && 0 <= c' < 256
    requires Quad(a, b, c) == Quad(a', b', c')
    ensures a == a' && b == b' && c == c'
  {
    var q, q' := Quad(a, b, c), Quad(a', b', c');
    assert q[0] == q'[0] && q[1] == q'[1] && q[2] == q'[2] && q[3] == q'[3];
    Char64Injective(a / 4, a' / 4);
    Char64Injective(a % 4 * 16 + b / 16, a' % 4 * 16 + b' / 16);
    Char64Injective(b % 16 * 4 + c / 64, b' % 16 * 4 + c' / 64);
    Char64Injective(c % 64, c' % 64);
  }

  lemma {:induction false} BareInjective(x: seq<int>, y: seq<int>)
    requires IsBytes(x) && IsBytes(y) && Bare(x) == Bare(y)
    ensures x == y
    decreases |x|
  {
    BareLength(x);
    BareLength(y);
    LengthsAgree(|x|, |y|);
    if |x| >= 3 {
      LongBareSplits(x, y);
      BareInjective(x[3..], y[3..]);
      assert x == [x[0], x[1], x[2]] + x[3..] && y == [y[0], y[1], y[2]] + y[3..];
    } else {
      ShortBareInjective(x, y);
    }
  }

  lemma LongBareSplits(x: seq<int>, y: seq<int>)
    requires IsBytes(x) && IsBytes(y) && |x| >= 3 && |y| >= 3 && Bare(x) == Bare(y)
    ensures x[0] == y[0] && x[1] == y[1] && x[2] == y[2] && Bare(x[3..]) == Bare(y[3..])
  {
    var p, q := Quad(x[0], x[1], x[2]), Quad(y[0], y[1], y[2]);
    assert p == Bare(x)[..4] == Bare(y)[..4] == q;
    assert Bare(x[3..]) == Bare(x)[4..] == Bare(y)[4..] == Bare(y[3..]);
    QuadInjective(x[0], x[1], x[2], y[0], y[1], y[2]);
  }

  lemma TwoBytesInjective(a: int, b: int, c: int, d: int)
    requires IsBytes([a, b]) && IsBytes([c, d]) && Bare([a, b]) == Bare([c, d])
    ensures a == c && b == d
  {
    assert [a, b][0] == a && [a, b][1] == b && [c, d][0] == c && [c, d][1] == d;
    QuadInjective(a, b, 0, c, d, 0);
  }

  lemma OneByteInjective(a: int, c: int)
    requires IsBytes([a]) && IsBytes([c]) && Bare([a]) == Bare([c])
    ensures a == c
  {
    assert [a][0] == a && [c][0] == c;
    QuadInjective(a, 0, 0, c, 0, 0);
  }

  lemma ShortBareInjective(x: seq<int>, y: seq<int>)
    requires IsBytes(x) && IsBytes(y) && |x| == |y| <= 2 && Bare(x) == Bare(y)
    ensures x == y
  {
    if |x| == 2 {
      assert x == [x[0], x[1]] && y == [y[0], y[1]];
      TwoBytesInjective(x[0], x[1], y[0], y[1]);
    } else if |x| == 1 {
      assert x == [x[0]] && y == [y[0]];
      OneByteInjective(x[0], y[0]);
    }
  }

  lemma LengthsAgree(n: nat, m: nat)
    requires n / 3 * 4 + (if n % 3 == 0 then 0 else n % 3 + 1) == m / 3 * 4 + (if m % 3 == 0 then 0 else m % 3 + 1)
    ensures n == m
  {
    assert n / 3 == m / 3;
  }

  lemma {:induction false} BareLength(x: seq<int>)
    requires IsBytes(x)
    ensures |Bare(x)| == |x| / 3 * 4 + (if |x| % 3 == 0 then 0 else |x| % 3 + 1)
    decreases |x|
  {
    if |x| >= 3 {
      BareLength(x[3..]);
    }
  }

  /** Pending keys are injective: two incidents share a key only if they share a cursor. */
  lemma PendingKeysAreInjective(a: Incident, b: Incident)
    requires ValidDateTime(a.at) && ValidDateTime(b.at)
    requires PendingKey(CursorOf(a)) == PendingKey(CursorOf(b))
    ensures CursorOf(a) == CursorOf(b) && a == b
  {
    var c, d := CursorOf(a), CursorOf(b);
    var s, t := c.timestamp + "\n" + c.incidentId, d.timestamp + "\n" + d.incidentId;
    Utf8Bytes(s);
    Utf8Bytes(t);
    StripLeavesBare(Utf8(s), "");
    StripLeavesBare(Utf8(t), "");
    assert "" + Base64(Utf8(s)) == Base64(Utf8(s)) && "" + Base64(Utf8(t)) == Base64(Utf8(t));
    assert "" + Bare(Utf8(s)) == Bare(Utf8(s)) && "" + Bare(Utf8(t)) == Bare(Utf8(t));
    BareInjective(Utf8(s), Utf8(t));
    Utf8Injective(s, t);
    IsoLength(a.at, b.at);
    assert c.timestamp == s[..|c.timestamp|] == t[..|c.timestamp|] == d.timestamp;
    assert c.incidentId == s[|c.timestamp| + 1..] == t[|c.timestamp| + 1..] == d.incidentId;
    IsoRoundTrip(a.at);
    IsoRoundTrip(b.at);
  }

  lemma IsoLength(a: DateTime, b: DateTime)
    requires ValidDateTime(a) && ValidDateTime(b)
    ensures |Iso(a)| == |Iso(b)|
  {
    FieldsFit(a);
    FieldsFit(b);
    EncodeOrder(Fields(a), Fields(b), LAYOUT);
  }

  // ---- the standards' own values ----

  /** The alphabet of section 5 of RFC 4648: capital letters, small letters, digits, minus, underscore. */
  lemma {:induction false} AlphabetIsStandard(i: int)
    requires 0 <= i < 64
    ensures Char64(0) == 'A' && Char64(25) == 'Z' && Char64(26) == 'a' && Char64(51) == 'z'
    ensures Char64(52) == '0' && Char64(61) == '9' && Char64(62) == '-' && Char64(63) == '_'
    ensures i != 25 && i != 51 && i < 61 ==> Char64(i + 1) as int == Char64(i) as int + 1
  {
  }

  /** Four characters stand for the 24 bits of three bytes, six by six. */
  lemma {:induction false} QuadIsTheBits(a: int, b: int, c: int) returns (s: seq<int>)
    requires 0 <= a < 256 && 0 <= b < 256 && 0 <= c < 256
    ensures |s| == 4 && forall k :: 0 <= k < 4 ==> 0 <= s[k] < 64
    ensures Quad(a, b, c) == [Char64(s[0]), Char64(s[1]), Char64(s[2]), Char64(s[3])]
    ensures ((s[0] * 64 + s[1]) * 64 + s[2]) * 64 + s[3] == (a * 256 + b) * 256 + c
  {
    s := [a / 4, a % 4 * 16 + b / 16, b % 16 * 4 + c / 64, c % 64];
  }

  /** One or two last bytes are encoded as if zeros followed, with padding for the zeros. */
  lemma {:induction false} TailIsTheBits(a: int, b: int)
    requires 0 <= a < 256 && 0 <= b < 256
    ensures IsBytes([a]) && Base64([a]) == Quad(a, 0, 0)[..2] + "=="
    ensures IsBytes([a, b]) && Base64([a, b]) == Quad(a, b, 0)[..3] + "="
  {
    assert [a][0] == a && [a, b][0] == a && [a, b][1] == b;
  }

  /** The bytes of a character, as section 3 of RFC 3629 splits its scalar value. */
  lemma {:induction false} Utf8IsStandard(c: char)
    ensures var n, b := c as int, Utf8Char(c);
            && (n <= 0x7F ==> b == [n])
            && (0x80 <= n <= 0x7FF ==> |b| == 2 && 0xC0 <= b[0] <= 0xDF && IsTail(b[1]) && n == (b[0] - 0xC0) * 64 + (b[1] - 0x80))
            && (0x800 <= n <= 0xFFFF ==> |b| == 3 && 0xE0 <= b[0] <= 0xEF && IsTail(b[1]) && IsTail(b[2])
                                         && n == ((b[0] - 0xE0) * 64 + (b[1] - 0x80)) * 64 + (b[2] - 0x80))
            && (0x1_0000 <= n ==> |b| == 4 && 0xF0 <= b[0] <= 0xF7 && IsTail(b[1]) && IsTail(b[2]) && IsTail(b[3])
                                  && n == (((b[0] - 0xF0) * 64 + (b[1] - 0x80)) * 64 + (b[2] - 0x80)) * 64 + (b[3] - 0x80))
  {
    Split64(c as int);
    Split64(c as int / 64);
    Split64(c as int / 64 / 64);
  }

  predicate IsTail(b: int) { 0x80 <= b <= 0xBF }

  lemma {:induction false} BareHasNoPadding(bs: seq<int>)
    requires IsBytes(bs)
    ensures '=' !in Bare(bs)
    decreases |bs|
  {
    if |bs| >= 3 {
      BareHasNoPadding(bs[3..]);
    }
  }

  /** A key has no padding: it is four characters for every three bytes of the cursor's text, and one
      more than is left over for the last one or two. */
  lemma {:induction false} KeysHaveNoPadding(c: Cursor)
    ensures var bs := Utf8(c.timestamp + "\n" + c.incidentId);
            '=' !in PendingKey(c) && |PendingKey(c)| == |bs| / 3 * 4 + (if |bs| % 3 == 0 then 0 else |bs| % 3 + 1)
  {
    var bs := Utf8(c.timestamp + "\n" + c.incidentId);
    Utf8Bytes(c.timestamp + "\n" + c.incidentId);
    StripLeavesBare(bs, "");
    assert "" + Base64(bs) == Base64(bs) && "" + Bare(bs) == Bare(bs);
    BareHasNoPadding(bs);
    BareLength(bs);
  }

  /** The key of a cursor is the stripped base64 of its timestamp, a newline and its id. */
  lemma {:induction false} KeyOfSmallCursor()
    ensures PendingKey(Cursor("a", "b")) == "YQpi"
  {
    var t: string := "a" + "\n" + "b";
    assert t == ['a'] + (['\n'] + (['b'] + ""));
    Utf8Cons('a', ['\n'] + (['b'] + ""));
    Utf8Cons('\n', ['b'] + "");
    Utf8Cons('b', "");
    Utf8Bytes(t);
    assert Utf8(t) == [97, 10, 98];
    KeyOfThreeBytes(Utf8(t));
  }

  lemma {:induction false} KeyOfThreeBytes(bs: seq<int>)
    requires bs == [97, 10, 98]
    ensures IsBytes(bs) && RStrip(Base64(bs)) == "YQpi"
  {
    StripLeavesBare(bs, "");
    assert "" + Base64(bs) == Base64(bs) && "" + Bare(bs) == Bare(bs);
    assert bs[3..] == [];
    assert Bare(bs) == Quad(97, 10, 98) + "";
    assert Quad(97, 10, 98) == [Char64(24), Char64(16), Char64(41), Char64(34)];
  }

  lemma {:induction false} Utf8Cons(c: char, s: string)
    ensures Utf8([c] + s) == Utf8Char(c) + Utf8(s)
  {
    assert ([c] + s)[1..] == s;
  }
}
