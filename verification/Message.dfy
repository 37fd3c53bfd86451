/** A message, its expiry, and the bytes that its hash and signature cover. */
module Message {

  type Byte = x: int | 0 <= x < 256
  type Bytes = seq<Byte>
  type MsgId = Bytes

  const NL: Byte := 10
  const DOT: Byte := 46
  const MINUS: Byte := 45
  const ZERO: Byte := 48

  /** A UTC timestamp by its calendar fields. */
  datatype Civil = Civil(year: nat, month: nat, day: nat, hour: nat, minute: nat, second: nat, nano: nat) {

    /** Four-digit years, and fields that their two digits or nine can hold. */
    predicate Valid()
    {
      year <= 9999 && 1 <= month <= 12 && 1 <= day <= 31 && hour < 24 && minute < 60 && second < 60
      && nano < 1_000_000_000
    }

    /** Nanoseconds since the first of March of year 0, in the Gregorian calendar. */
    function Instant(): int
    {
      (((DayNumber(year, month, day) * 24 + hour) * 60 + minute) * 60 + second) * 1_000_000_000 + nano
    }
  }

  /** Days since the first of March of year 0. */
  function DayNumber(year: nat, month: nat, day: nat): int
  {
    var y := if month <= 2 then year - 1 else year;
    var m := (month + 9) % 12;
    365 * y + y / 4 - y / 100 + y / 400 + (153 * m + 2) / 5 + day - 1
  }

  /** The fields that the signature covers. */
  datatype Signed = Signed(id: Bytes, recipient: Bytes, created: Civil, lifespan: int, length: int, sha256: Bytes) {

    predicate Expired(now: int)
    {
      created.Instant() + lifespan < now
    }
  }

  /** A message: the nodes that relayed it, and the signed fields. */
  datatype Message = Message(hops: seq<string>, signed: Signed)

  // ---------- Text of the fields ----------

  /** The `width` low decimal digits of n. */
  function Digits(n: nat, width: nat): (s: Bytes)
    ensures |s| == width && NL !in s && DOT !in s
  {
    if width == 0 then [] else Digits(n / 10, width - 1) + [ZERO + n % 10]
  }

  function Decimal(n: nat): (s: Bytes)
    ensures |s| > 0 && NL !in s && MINUS !in s
  {
    if n < 10 then [ZERO + n] else Decimal(n / 10) + [ZERO + n % 10]
  }

  function StripZeros(s: Bytes): (t: Bytes)
    ensures t <= s
  {
    if s != [] && s[|s| - 1] == ZERO then StripZeros(s[..|s| - 1]) else s
  }

  /** The `.999999999` part of the layout: no dot at all for a whole second. */
  function Fraction(nano: nat): (s: Bytes)
    ensures NL !in s
  {
    var t := StripZeros(Digits(nano, 9));
    if t == [] then [] else [DOT] + t
  }

  /** Layout 20060102150405.999999999. */
  function TimeText(c: Civil): (s: Bytes)
    ensures NL !in s
  {
    Digits(c.year, 4) + Digits(c.month, 2) + Digits(c.day, 2) + Digits(c.hour, 2) + Digits(c.minute, 2)
    + Digits(c.second, 2) + Fraction(c.nano)
  }

  /** What fmt prints for an int64 under the verb %s, before the digits: "%!s(int64=". */
  const BAD_VERB: Bytes := [37, 33, 115, 40, 105, 110, 116, 54, 52, 61]

  function Number(v: int): (s: Bytes)
    ensures |s| > 0 && NL !in s && (v < 0 <==> s[0] == MINUS)
  {
    if v < 0 then [MINUS] + Decimal(-v) else Decimal(v)
  }

  function Int64Text(v: int): (s: Bytes)
    ensures NL !in s
  {
    BAD_VERB + Number(v) + [41]
  }

  /** The bytes that Hash feeds to SHA-256. */
  function Preimage(m: Signed): Bytes
  {
    m.id + [NL] + (m.recipient + [NL] + (TimeText(m.created) + [NL]
    + (Int64Text(m.lifespan) + [NL] + (Int64Text(m.length) + [NL] + m.sha256))))
  }

  // ---------- Each field's text determines the field ----------

  lemma {:induction false} DigitsInjective(a: nat, b: nat, width: nat, bound: nat)
    requires a < bound && b < bound && bound <= Ten(width)
    requires Digits(a, width) == Digits(b, width)
    ensures a == b
    decreases width
  {
    if width > 0 {
      var x, y := Digits(a, width), Digits(b, width);
      assert x[..width - 1] == Digits(a / 10, width - 1) && y[..width - 1] == Digits(b / 10, width - 1);
      assert x[width - 1] == y[width - 1];
      DigitsInjective(a / 10, b / 10, width - 1, Ten(width - 1));
    }
  }

  function Ten(k: nat): (r: nat)
    ensures r > 0
  {
    if k == 0 then 1 else 10 * Ten(k - 1)
  }

  lemma {:induction false} DecimalInjective(a: nat, b: nat)
    requires Decimal(a) == Decimal(b)
    ensures a == b
  {
    var x, y := Decimal(a), Decimal(b);
    assert x[|x| - 1] == y[|y| - 1];
    if a >= 10 && b >= 10 {
      assert x[..|x| - 1] == Decimal(a / 10) && y[..|y| - 1] == Decimal(b / 10);
      DecimalInjective(a / 10, b / 10);
    }
  }

  lemma NumberInjective(a: int, b: int)
    requires Number(a) == Number(b)
    ensures a == b
  {
    if a < 0 {
      assert Number(a)[1..] == Decimal(-a) && Number(b)[1..] == Decimal(-b);
      DecimalInjective(-a, -b);
    } else {
      DecimalInjective(a, b);
    }
  }

  lemma Int64TextInjective(a: int, b: int)
    requires Int64Text(a) == Int64Text(b)
    ensures a == b
  {
    hide Number;
    var n := |BAD_VERB|;
    assert forall v :: Int64Text(v)[n..|Int64Text(v)| - 1] == Number(v);
    NumberInjective(a, b);
  }

  function Zeros(k: nat): Bytes
  {
    seq(k, _ => ZERO)
  }

  /** Stripping loses trailing zeros and nothing else. */
  lemma {:induction false} StripRestores(s: Bytes)
    ensures s == StripZeros(s) + Zeros(|s| - |StripZeros(s)|)
  {
    if s != [] && s[|s| - 1] == ZERO {
      StripRestores(s[..|s| - 1]);
      assert s == s[..|s| - 1] + [ZERO];
    }
  }

  lemma FractionInjective(a: nat, b: nat)
    requires a < 1_000_000_000 && b < 1_000_000_000 && Fraction(a) == Fraction(b)
    ensures a == b
  {
    hide StripZeros, Digits;
    var x, y := Digits(a, 9), Digits(b, 9);
    assert StripZeros(x) == StripZeros(y) by {
      assert StripZeros(x) != [] ==> Fraction(a)[1..] == StripZeros(x);
      assert StripZeros(y) != [] ==> Fraction(b)[1..] == StripZeros(y);
    }
    StripRestores(x);
    StripRestores(y);
    assert Ten(9) == 1_000_000_000;
    DigitsInjective(a, b, 9, 1_000_000_000);
  }

  /** Texts with heads of one length are equal only if heads and tails are. */
  lemma SplitAt(p: Bytes, q: Bytes, x: Bytes, y: Bytes)
    requires |p| == |q| && p + x == q + y
    ensures p == q && x == y
  {
    assert (p + x)[..|p|] == p && (q + y)[..|q|] == q;
    assert (p + x)[|p|..] == x && (q + y)[|q|..] == y;
  }

  /** Year, month and day; hour, minute and second. */
  function DateText(c: Civil): (s: Bytes)
    ensures |s| == 8
  {
    Digits(c.year, 4) + Digits(c.month, 2) + Digits(c.day, 2)
  }

  function ClockText(c: Civil): (s: Bytes)
    ensures |s| == 6
  {
    Digits(c.hour, 2) + Digits(c.minute, 2) + Digits(c.second, 2)
  }

  lemma TimeTextParts(c: Civil)
    ensures TimeText(c) == (DateText(c) + ClockText(c)) + Fraction(c.nano)
  {
    hide Digits, Fraction;
    var d := DateText(c);
    assert d + ClockText(c) == d + Digits(c.hour, 2) + Digits(c.minute, 2) + Digits(c.second, 2);
  }

  lemma DateInjective(a: Civil, b: Civil)
    requires a.Valid() && b.Valid() && DateText(a) == DateText(b)
    ensures a.year == b.year && a.month == b.month && a.day == b.day
  {
    hide Digits;
    SplitAt(Digits(a.year, 4) + Digits(a.month, 2), Digits(b.year, 4) + Digits(b.month, 2),
            Digits(a.day, 2), Digits(b.day, 2));
    SplitAt(Digits(a.year, 4), Digits(b.year, 4), Digits(a.month, 2), Digits(b.month, 2));
    DigitsInjective(a.year, b.year, 4, 10000);
    DigitsInjective(a.month, b.month, 2, 100);
    DigitsInjective(a.day, b.day, 2, 100);
  }

  lemma ClockInjective(a: Civil, b: Civil)
    requires a.Valid() && b.Valid() && ClockText(a) == ClockText(b)
    ensures a.hour == b.hour && a.minute == b.minute && a.second == b.second
  {
    hide Digits;
    SplitAt(Digits(a.hour, 2) + Digits(a.minute, 2), Digits(b.hour, 2) + Digits(b.minute, 2),
            Digits(a.second, 2), Digits(b.second, 2));
    SplitAt(Digits(a.hour, 2), Digits(b.hour, 2), Digits(a.minute, 2), Digits(b.minute, 2));
    DigitsInjective(a.hour, b.hour, 2, 100);
    DigitsInjective(a.minute, b.minute, 2, 100);
    DigitsInjective(a.second, b.second, 2, 100);
  }

  lemma TimeTextInjective(a: Civil, b: Civil)
    requires a.Valid() && b.Valid() && TimeText(a) == TimeText(b)
    ensures a == b
  {
    TimeTextParts(a);
    TimeTextParts(b);
    hide TimeText, DateText, ClockText, Fraction;
    SplitAt(DateText(a) + ClockText(a), DateText(b) + ClockText(b), Fraction(a.nano), Fraction(b.nano));
    SplitAt(DateText(a), DateText(b), ClockText(a), ClockText(b));
    DateInjective(a, b);
    ClockInjective(a, b);
    FractionInjective(a.nano, b.nano);
  }

  // ---------- Splitting at newlines ----------

  lemma SplitFirst(a: Bytes, b: Bytes, x: Bytes, y: Bytes)
    requires NL !in a && NL !in b && a + [NL] + x == b + [NL] + y
    ensures a == b && x == y
  {
    var u, v := a + [NL] + x, b + [NL] + y;
    assert forall i :: 0 <= i < |a| ==> u[i] == a[i] && a[i] in a;
    assert forall i :: 0 <= i < |b| ==> v[i] == b[i] && b[i] in b;
    assert u[|a|] == NL && v[|b|] == NL;
    assert |a| == |b|;
    assert u[..|a|] == a && v[..|b|] == b;
    assert u[|a| + 1..] == x && v[|b| + 1..] == y;
  }

  lemma NoneAfter(a: Bytes, x: Bytes)
    requires NL !in x
    ensures forall i :: |a| < i < |a + [NL] + x| ==> (a + [NL] + x)[i] != NL
  {
    forall i | |a| < i < |a + [NL] + x|
      ensures (a + [NL] + x)[i] != NL
    {
      assert (a + [NL] + x)[i] == x[i - |a| - 1];
    }
  }

  lemma SplitLast(a: Bytes, b: Bytes, x: Bytes, y: Bytes)
    requires NL !in x && NL !in y && a + [NL] + x == b + [NL] + y
    ensures a == b && x == y
  {
    var u, v := a + [NL] + x, b + [NL] + y;
    NoneAfter(a, x);
    NoneAfter(b, y);
    assert u[|a|] == NL && v[|b|] == NL;
    assert |a| == |b|;
    SplitAt(a + [NL], b + [NL], x, y);
    SplitAt(a, b, [NL], [NL]);
  }

  // ---------- The preimage determines the signed fields ----------

  /** Read from the left: if neither id nor recipient holds a newline, whatever the Sha256 lengths. */
  lemma UnambiguousFromLeft(m: Signed, n: Signed)
    requires m.created.Valid() && n.created.Valid()
    requires NL !in m.id && NL !in m.recipient && NL !in n.id && NL !in n.recipient
    requires Preimage(m) == Preimage(n)
    ensures m == n
  {
    var s1, s2 := m.sha256, n.sha256;
    var l1, l2 := Int64Text(m.length) + [NL] + s1, Int64Text(n.length) + [NL] + s2;
    var p1, p2 := Int64Text(m.lifespan) + [NL] + l1, Int64Text(n.lifespan) + [NL] + l2;
    var t1, t2 := TimeText(m.created) + [NL] + p1, TimeText(n.created) + [NL] + p2;
    SplitFirst(m.id, n.id, m.recipient + [NL] + t1, n.recipient + [NL] + t2);
    SplitFirst(m.recipient, n.recipient, t1, t2);
    SplitFirst(TimeText(m.created), TimeText(n.created), p1, p2);
    SplitFirst(Int64Text(m.lifespan), Int64Text(n.lifespan), l1, l2);
    SplitFirst(Int64Text(m.length), Int64Text(n.length), s1, s2);
    TimeTextInjective(m.created, n.created);
    Int64TextInjective(m.lifespan, n.lifespan);
    Int64TextInjective(m.length, n.length);
  }

  /** Everything but the Sha256, grouped so that it reads from the right. */
  function Head(m: Signed): Bytes
  {
    m.id + [NL] + m.recipient + [NL] + TimeText(m.created) + [NL] + Int64Text(m.lifespan) + [NL]
    + Int64Text(m.length) + [NL]
  }

  lemma MoveLine(h: Bytes, f: Bytes, p: Bytes)
    ensures h + (f + [NL] + p) == (h + f + [NL]) + p
  {
  }

  lemma PreimageHead(m: Signed)
    ensures Preimage(m) == Head(m) + m.sha256
  {
    var t, l, n := TimeText(m.created), Int64Text(m.lifespan), Int64Text(m.length);
    var p1 := n + [NL] + m.sha256;
    var p2 := l + [NL] + p1;
    var p3 := t + [NL] + p2;
    var h1 := m.id + [NL];
    MoveLine(h1, m.recipient, p3);
    var h2 := h1 + m.recipient + [NL];
    MoveLine(h2, t, p2);
    var h3 := h2 + t + [NL];
    MoveLine(h3, l, p1);
    MoveLine(h3 + l + [NL], n, m.sha256);
  }

  lemma HeadDetermines(m: Signed, n: Signed)
    requires m.created.Valid() && n.created.Valid() && |m.id| == |n.id| && Head(m) == Head(n)
    ensures m == n.(sha256 := m.sha256)
  {
    var r1, r2 := m.id + [NL] + m.recipient, n.id + [NL] + n.recipient;
    var t1, t2 := r1 + [NL] + TimeText(m.created), r2 + [NL] + TimeText(n.created);
    var p1, p2 := t1 + [NL] + Int64Text(m.lifespan), t2 + [NL] + Int64Text(n.lifespan);
    var l1, l2 := p1 + [NL] + Int64Text(m.length), p2 + [NL] + Int64Text(n.length);
    SplitLast(l1, l2, [], []);
    SplitLast(p1, p2, Int64Text(m.length), Int64Text(n.length));
    SplitLast(t1, t2, Int64Text(m.lifespan), Int64Text(n.lifespan));
    SplitLast(r1, r2, TimeText(m.created), TimeText(n.created));
    assert r1[..|m.id|] == m.id && r2[..|n.id|] == n.id;
    assert r1[|m.id| + 1..] == m.recipient && r2[|n.id| + 1..] == n.recipient;
    TimeTextInjective(m.created, n.created);
    Int64TextInjective(m.lifespan, n.lifespan);
    Int64TextInjective(m.length, n.length);
  }

  /**
   * Read from the right: two messages with equal preimages are equal exactly when
   * their ids have equal lengths and their Sha256 fields have equal lengths.
   */
  lemma AmbiguousOnlyByLength(m: Signed, n: Signed)
    requires m.created.Valid() && n.created.Valid() && Preimage(m) == Preimage(n)
    ensures m == n <==> |m.id| == |n.id| && |m.sha256| == |n.sha256|
  {
    if |m.id| == |n.id| && |m.sha256| == |n.sha256| {
      PreimageHead(m);
      PreimageHead(n);
      var k := |Head(m)|;
      assert Preimage(m)[..k] == Head(m) && Preimage(n)[..k] == Head(n);
      assert Preimage(m)[k..] == m.sha256 && Preimage(n)[k..] == n.sha256;
      HeadDetermines(m, n);
    }
  }

  /**
   * The preimage alone is ambiguous: a message whose recipient embeds a header
   * has the same preimage as one that ends its recipient there and whose Sha256
   * field is longer.
   */
  lemma EmbeddedHeaderCollides(m: Signed, r: Bytes, t: Civil, l: int, k: int, rest: Bytes)
    requires m.recipient == r + [NL] + (TimeText(t) + [NL] + (Int64Text(l) + [NL] + (Int64Text(k) + [NL] + rest)))
    ensures var tail := rest + [NL] + (TimeText(m.created) + [NL] + (Int64Text(m.lifespan) + [NL]
                                                                     + (Int64Text(m.length) + [NL] + m.sha256)));
            var n := Signed(m.id, r, t, l, k, tail);
            n != m && n.id == m.id && |n.sha256| > |m.sha256| && Preimage(n) == Preimage(m)
  {
    hide TimeText, Int64Text;
    var x := TimeText(m.created) + [NL] + (Int64Text(m.lifespan) + [NL] + (Int64Text(m.length) + [NL] + m.sha256));
    var y1 := Int64Text(k) + [NL] + rest;
    var y2 := Int64Text(l) + [NL] + y1;
    var y3 := TimeText(t) + [NL] + y2;
    PushTail(r, y3, x);
    PushTail(TimeText(t), y2, x);
    PushTail(Int64Text(l), y1, x);
    PushTail(Int64Text(k), rest, x);
  }

  lemma PushTail(f: Bytes, p: Bytes, x: Bytes)
    ensures (f + [NL] + p) + [NL] + x == f + [NL] + (p + [NL] + x)
  {
  }

  /** Two different messages, one with a 32-byte Sha256, that share an id and a preimage. */
  lemma CollisionExample() returns (m: Signed, n: Signed)
    ensures m.created.Valid() && n.created.Valid() && m.id == n.id && |m.sha256| == 32
    ensures m != n && Preimage(m) == Preimage(n)
  {
    var t := Civil(2016, 6, 22, 13, 40, 12, 123);
    var r := [98, 111, 98] + [NL] + (TimeText(t) + [NL] + (Int64Text(1) + [NL] + (Int64Text(2) + [NL] + [])));
    m := Signed([102, 111, 111], r, t, 3600, 12, Zeros(32));
    EmbeddedHeaderCollides(m, [98, 111, 98], t, 1, 2, []);
    n := Signed(m.id, [98, 111, 98], t, 1, 2,
                [] + [NL] + (TimeText(t) + [NL] + (Int64Text(3600) + [NL] + (Int64Text(12) + [NL] + m.sha256))));
  }

  // ---------- What the texts say ----------

  predicate IsDigits(s: Bytes)
  {
    forall i :: 0 <= i < |s| ==> ZERO <= s[i] < ZERO + 10
  }

  /** The number that decimal digits stand for. */
  function Value(s: Bytes): nat
    requires IsDigits(s)
  {
    if s == [] then 0 else Value(s[..|s| - 1]) * 10 + (s[|s| - 1] - ZERO)
  }

  /** Digits are the last `width` decimal digits. */
  lemma {:induction false} DigitsValue(n: nat, width: nat)
    requires n < Ten(width)
    ensures IsDigits(Digits(n, width)) && Value(Digits(n, width)) == n
    decreases width
  {
    if width > 0 {
      DigitsValue(n / 10, width - 1);
      var s := Digits(n, width);
      assert s[..width - 1] == Digits(n / 10, width - 1);
    }
  }

  /** Decimal is the number without leading zeros. */
  lemma {:induction false} DecimalValue(n: nat)
    ensures IsDigits(Decimal(n)) && Value(Decimal(n)) == n && (n > 0 ==> Decimal(n)[0] != ZERO)
  {
    var s := Decimal(n);
    if n < 10 {
      assert s[..0] == [];
    } else {
      DecimalValue(n / 10);
      assert s[..|s| - 1] == Decimal(n / 10);
    }
  }

  /** The text of an int64 under %s: the verb's complaint around its sign and its decimal digits. */
  lemma Int64TextSays(v: int)
    ensures var n := if v < 0 then -v else v;
            var d := Decimal(n);
            && IsDigits(d) && Value(d) == n && (n > 0 ==> d[0] != ZERO)
            && Int64Text(v) == [37, 33, 115, 40, 105, 110, 116, 54, 52, 61] + (if v < 0 then [MINUS] else []) + d + [41]
  {
    DecimalValue(if v < 0 then -v else v);
    hide Decimal, Value;
  }

  lemma {:induction false} StrippedLast(s: Bytes)
    ensures StripZeros(s) != [] ==> StripZeros(s)[|StripZeros(s)| - 1] != ZERO
  {
    if s != [] && s[|s| - 1] == ZERO {
      StrippedLast(s[..|s| - 1]);
    }
  }

  lemma {:induction false} ZerosAfter(s: Bytes, k: nat)
    requires IsDigits(s)
    ensures IsDigits(s + Zeros(k)) && Value(s + Zeros(k)) == Value(s) * Ten(k)
    decreases k
  {
    if k == 0 {
      assert s + Zeros(0) == s;
    } else {
      ZerosAfter(s, k - 1);
      var all := s + Zeros(k);
      assert all[..|all| - 1] == s + Zeros(k - 1);
      TimesTen(Value(s), Ten(k - 1));
    }
  }

  lemma TimesTen(x: nat, y: nat)
    ensures x * y * 10 == x * (10 * y)
  {
  }

  lemma StrippedValue(nano: nat)
    requires nano < 1_000_000_000
    ensures var t := StripZeros(Digits(nano, 9));
            && |t| <= 9 && IsDigits(t) && Value(t) * Ten(9 - |t|) == nano
            && (t == [] <==> nano == 0) && (t != [] ==> t[|t| - 1] != ZERO)
  {
    var s := Digits(nano, 9);
    var t := StripZeros(s);
    assert Ten(9) == 1_000_000_000;
    DigitsValue(nano, 9);
    StripRestores(s);
    StrippedLast(s);
    hide StripZeros, Digits, Value, Ten;
    ZerosAfter(t, 9 - |t|);
    NoValue(t);
    Scaled(Value(t), Ten(9 - |t|));
  }

  /** The fraction is the decimal fraction of a second, without trailing zeros and absent for a whole second. */
  lemma FractionSays(nano: nat)
    requires nano < 1_000_000_000
    ensures nano == 0 <==> Fraction(nano) == []
    ensures nano > 0 ==>
              var t := Fraction(nano)[1..];
              && Fraction(nano)[0] == DOT && 0 < |t| <= 9 && t[|t| - 1] != ZERO
              && IsDigits(t) && Value(t) * Ten(9 - |t|) == nano
  {
    var t := StripZeros(Digits(nano, 9));
    StrippedValue(nano);
    FractionText(nano);
    hide *;
    if t != [] {
      assert Fraction(nano)[1..] == t;
    }
  }

  lemma Scaled(x: nat, y: nat)
    requires y > 0
    ensures x * y == 0 <==> x == 0
  {
  }

  lemma FractionText(nano: nat)
    ensures var t := StripZeros(Digits(nano, 9));
            if t == [] then Fraction(nano) == []
            else |Fraction(nano)| == |t| + 1 && Fraction(nano)[0] == DOT && Fraction(nano)[1..] == t
  {
  }

  /** Digits without a last zero stand for zero only if there are none. */
  lemma NoValue(s: Bytes)
    requires IsDigits(s) && (s != [] ==> s[|s| - 1] != ZERO)
    ensures Value(s) == 0 <==> s == []
  {
  }

  /** The digits from place i up to place j stand for n. */
  predicate Reads(s: Bytes, i: nat, j: nat, n: nat)
  {
    i <= j <= |s| && IsDigits(s[i..j]) && Value(s[i..j]) == n
  }

  lemma DateSays(c: Civil)
    requires c.Valid()
    ensures var d := DateText(c); Reads(d, 0, 4, c.year) && Reads(d, 4, 6, c.month) && Reads(d, 6, 8, c.day)
  {
    assert Ten(4) == 10000 && Ten(2) == 100;
    DigitsValue(c.year, 4);
    DigitsValue(c.month, 2);
    DigitsValue(c.day, 2);
    hide Digits, Value, Ten;
    var d := DateText(c);
    assert d[0..4] == Digits(c.year, 4) && d[4..6] == Digits(c.month, 2) && d[6..8] == Digits(c.day, 2);
  }

  lemma ClockSays(c: Civil)
    requires c.Valid()
    ensures var d := ClockText(c); Reads(d, 0, 2, c.hour) && Reads(d, 2, 4, c.minute) && Reads(d, 4, 6, c.second)
  {
    assert Ten(2) == 100;
    DigitsValue(c.hour, 2);
    DigitsValue(c.minute, 2);
    DigitsValue(c.second, 2);
    hide Digits, Value, Ten;
    var d := ClockText(c);
    assert d[0..2] == Digits(c.hour, 2) && d[2..4] == Digits(c.minute, 2) && d[4..6] == Digits(c.second, 2);
  }

  /** The time text: year, month, day, hour, minute and second at fixed places, then the fraction. */
  lemma TimeTextSays(c: Civil)
    requires c.Valid()
    ensures var s := TimeText(c);
            && Reads(s, 0, 4, c.year) && Reads(s, 4, 6, c.month) && Reads(s, 6, 8, c.day)
            && Reads(s, 8, 10, c.hour) && Reads(s, 10, 12, c.minute) && Reads(s, 12, 14, c.second)
            && s[14..] == Fraction(c.nano)
  {
    TimeTextParts(c);
    DateSays(c);
    ClockSays(c);
    hide TimeText, DateText, ClockText, Fraction, Value, IsDigits;
    var s, d, t := TimeText(c), DateText(c), ClockText(c);
    assert s[14..] == Fraction(c.nano);
    assert s[0..4] == d[0..4] && s[4..6] == d[4..6] && s[6..8] == d[6..8];
    assert s[8..10] == t[0..2] && s[10..12] == t[2..4] && s[12..14] == t[4..6];
  }

  /** The bytes up to the first newline, and those after it. */
  function FirstLine(s: Bytes): Bytes
  {
    if s == [] || s[0] == NL then [] else [s[0]] + FirstLine(s[1..])
  }

  function AfterLine(s: Bytes): Bytes
  {
    if s == [] then [] else if s[0] == NL then s[1..] else AfterLine(s[1..])
  }

  lemma {:induction false} LineOff(f: Bytes, s: Bytes)
    requires NL !in f
    ensures FirstLine(f + [NL] + s) == f && AfterLine(f + [NL] + s) == s
  {
    var all := f + [NL] + s;
    if f != [] {
      assert all[1..] == f[1..] + [NL] + s;
      LineOff(f[1..], s);
    } else {
      assert all[1..] == s;
    }
  }

  /** Read line by line, the preimage is id, recipient, creation time, lifespan, length, Sha256. */
  lemma PreimageSays(m: Signed)
    requires NL !in m.id && NL !in m.recipient
    ensures var s0 := Preimage(m);
            var s1 := AfterLine(s0);
            var s2 := AfterLine(s1);
            var s3 := AfterLine(s2);
            var s4 := AfterLine(s3);
            && FirstLine(s0) == m.id && FirstLine(s1) == m.recipient && FirstLine(s2) == TimeText(m.created)
            && FirstLine(s3) == Int64Text(m.lifespan) && FirstLine(s4) == Int64Text(m.length)
            && AfterLine(s4) == m.sha256
  {
    var p4 := Int64Text(m.length) + [NL] + m.sha256;
    var p3 := Int64Text(m.lifespan) + [NL] + p4;
    var p2 := TimeText(m.created) + [NL] + p3;
    var p1 := m.recipient + [NL] + p2;
    LineOff(m.id, p1);
    LineOff(m.recipient, p2);
    LineOff(TimeText(m.created), p3);
    LineOff(Int64Text(m.lifespan), p4);
    LineOff(Int64Text(m.length), m.sha256);
    hide TimeText, Int64Text, FirstLine, AfterLine;
  }
}
