/** The three retry delays, in 64-bit arithmetic that wraps around. */
module Backoff {
  import opened Selection

  const TWO63 := 0x8000_0000_0000_0000
  const TWO64 := 0x1_0000_0000_0000_0000

  const MILLISECOND := 1_000_000
  const SECOND := 1_000_000_000
  const MINUTE := 60_000_000_000

  /** The signed 64-bit value of an integer. */
  function Wrap(x: int): (r: int)
    ensures -TWO63 <= r < TWO63
  {
    var m := x % TWO64;
    if m < TWO63 then m else m - TWO64
  }

  /** time.Duration(base << n) * unit, capped. */
  function Delay(base: nat, n: nat, unit: nat, cap: nat): int
  {
    var d := Wrap(Wrap(base * Pow2(n)) * unit);
    if d > cap then cap else d
  }

  /** What the comments in the code promise: base * 2^n units, at most the cap. */
  function Ideal(base: nat, n: nat, unit: nat, cap: nat): nat
  {
    var d := base * Pow2(n) * unit;
    if d > cap then cap else d
  }

  /** Retry of one message to one peer; the draw is in [0, 10). */
  function MessageDelay(draw: nat, n: nat): int
  {
    Delay(10 + draw, n, SECOND, 5 * MINUTE)
  }

  /** Retry of Diff; the draw is in [0, 5). */
  function DiffDelay(draw: nat, n: nat): int
  {
    Delay(5 + draw, n, SECOND, 5 * MINUTE)
  }

  /** Retry of an RPC; the draw is in [0, 100). */
  function RpcDelay(draw: nat, n: nat): int
  {
    Delay(100 + draw, n, MILLISECOND, MINUTE)
  }

  lemma WrapSmall(x: nat)
    requires x < TWO63
    ensures Wrap(x) == x
  {
  }

  lemma WrapShift(x: int, k: int)
    ensures Wrap(x + k * TWO64) == Wrap(x)
  {
  }

  /** Wrapping early or late makes no difference. */
  lemma WrapMul(x: int, u: int)
    ensures Wrap(Wrap(x) * u) == Wrap(x * u)
  {
    var k := x / TWO64 + (if x % TWO64 < TWO63 then 0 else 1);
    assert x == Wrap(x) + k * TWO64;
    assert x * u == Wrap(x) * u + (k * u) * TWO64;
    WrapShift(Wrap(x) * u, k * u);
  }

  lemma {:induction false} IdealMonotone(base: nat, top: nat, j: nat, k: nat, unit: nat)
    requires base <= top && j <= k
    ensures base * Pow2(j) * unit <= top * Pow2(k) * unit
  {
    Pow2Monotone(j, k);
    MulMonotone(base, top, Pow2(j), Pow2(k));
    MulMonotone(base * Pow2(j), top * Pow2(k), unit, unit);
  }

  lemma MulMonotone(a: nat, b: nat, x: nat, y: nat)
    requires a <= b && x <= y
    ensures a * x <= b * y
  {
    assert b * y - a * x == b * (y - x) + (b - a) * x;
  }

  /** No wrap-around below 2^63: the delay is exact. */
  lemma DelayExact(base: nat, n: nat, unit: nat, cap: nat)
    requires base > 0 && unit > 0 && cap > 0 && base * Pow2(n) * unit < TWO63
    ensures Delay(base, n, unit, cap) == Ideal(base, n, unit, cap)
    ensures 0 < Delay(base, n, unit, cap) <= cap
  {
    WrapMul(base * Pow2(n), unit);
    WrapSmall(base * Pow2(n) * unit);
    MulMonotone(1, base, 1, Pow2(n));
    MulMonotone(1, base * Pow2(n), 1, unit);
  }

  lemma MulSwap(a: int, b: int, c: int)
    ensures a * b * c == (a * c) * b
  {
  }

  /** Once the product is a multiple of 2^64 it stays one. */
  lemma ZeroFrom(x: nat, j: nat, n: nat, k: nat)
    requires j <= n && x * Pow2(j) == k * TWO64
    ensures (x * Pow2(n)) % TWO64 == 0
  {
    hide Pow2;
    Pow2Add(j, n - j);
    MulAssoc(x, Pow2(j), Pow2(n - j));
    MultipleOf(k, Pow2(n - j));
  }

  lemma MulAssoc(a: int, b: int, c: int)
    ensures a * (b * c) == (a * b) * c
  {
  }

  lemma MultipleOf(k: nat, q: nat)
    ensures ((k * TWO64) * q) % TWO64 == 0
  {
    MulSwap(k, TWO64, q);
    var p := k * q;
    assert (p * TWO64) % TWO64 == 0;
  }

  // ---------- When the promise is kept ----------

  /** Between the smallest and the largest base, every draw is exact up to `last`. */
  lemma ExactUpTo(low: nat, high: nat, last: nat, n: nat, unit: nat, cap: nat)
    requires 0 < low <= high && unit > 0 && cap > 0 && n <= last && high * Pow2(last) * unit < TWO63
    ensures forall base: nat :: low <= base <= high ==>
              Delay(base, n, unit, cap) == Ideal(base, n, unit, cap) && 0 < Delay(base, n, unit, cap) <= cap
  {
    hide Pow2, Delay, Ideal;
    forall base: nat | low <= base <= high
      ensures Delay(base, n, unit, cap) == Ideal(base, n, unit, cap) && 0 < Delay(base, n, unit, cap) <= cap
    {
      IdealMonotone(base, high, n, last, unit);
      DelayExact(base, n, unit, cap);
    }
  }

  /** From `zero` on, 2^zero * unit being a multiple of 2^64, every delay is zero. */
  lemma ZeroDelay(base: nat, zero: nat, n: nat, unit: nat, cap: nat, k: nat)
    requires zero <= n && Pow2(zero) * unit == k * TWO64
    ensures Delay(base, n, unit, cap) == 0
  {
    hide Pow2;
    MulSwap(base, Pow2(zero), unit);
    MulAssoc(base, Pow2(zero), unit);
    MulAssoc(base, k, TWO64);
    ZeroFrom(base * unit, zero, n, base * k);
    MulSwap(base, Pow2(n), unit);
    WrapMul(base * Pow2(n), unit);
  }

  /** A product that lies in the upper half of a period of 2^64 gives a negative delay. */
  lemma Negative(base: nat, n: nat, p: nat, unit: nat, cap: nat, q: nat)
    requires Pow2(n) == p && q * TWO64 + TWO63 <= base * p * unit < (q + 1) * TWO64
    ensures Delay(base, n, unit, cap) < 0
  {
    hide Pow2, Wrap;
    WrapMul(base * p, unit);
    WrapUpper(base * p * unit, q);
  }

  lemma WrapUpper(x: nat, q: nat)
    requires q * TWO64 + TWO63 <= x < (q + 1) * TWO64
    ensures Wrap(x) < 0
  {
    var r := x - q * TWO64;
    assert Wrap(r) < 0;
    hide Wrap;
    WrapShift(r, q);
  }

  /** The powers of two at which delays wrap around. */
  lemma PowersFrom28()
    ensures Pow2(28) == 0x1000_0000 && Pow2(29) == 0x2000_0000 && Pow2(30) == 0x4000_0000
    ensures Pow2(31) == 0x8000_0000 && Pow2(32) == 0x1_0000_0000 && Pow2(33) == 0x2_0000_0000
    ensures Pow2(34) == 0x4_0000_0000 && Pow2(35) == 0x8_0000_0000 && Pow2(36) == 0x10_0000_0000
    ensures Pow2(37) == 0x20_0000_0000 && Pow2(38) == 0x40_0000_0000
  {
    assert Pow2(14) == 0x4000;
    Pow2Add(14, 14);
    assert Pow2(28) == 0x1000_0000;
    assert Pow2(29) == 0x2000_0000;
    assert Pow2(30) == 0x4000_0000;
    assert Pow2(31) == 0x8000_0000;
    assert Pow2(32) == 0x1_0000_0000;
    assert Pow2(33) == 0x2_0000_0000;
    assert Pow2(34) == 0x4_0000_0000;
    assert Pow2(35) == 0x8_0000_0000;
    assert Pow2(36) == 0x10_0000_0000;
    assert Pow2(37) == 0x20_0000_0000;
    assert Pow2(38) == 0x40_0000_0000;
  }

  lemma PowersFrom38()
    ensures Pow2(38) == 0x40_0000_0000 && Pow2(39) == 0x80_0000_0000 && Pow2(40) == 0x100_0000_0000
    ensures Pow2(41) == 0x200_0000_0000 && Pow2(42) == 0x400_0000_0000 && Pow2(43) == 0x800_0000_0000
    ensures Pow2(44) == 0x1000_0000_0000 && Pow2(45) == 0x2000_0000_0000 && Pow2(46) == 0x4000_0000_0000
    ensures Pow2(47) == 0x8000_0000_0000 && Pow2(48) == 0x1_0000_0000_0000
  {
    PowersFrom28();
    assert Pow2(38) == 0x40_0000_0000;
    assert Pow2(39) == 0x80_0000_0000;
    assert Pow2(40) == 0x100_0000_0000;
    assert Pow2(41) == 0x200_0000_0000;
    assert Pow2(42) == 0x400_0000_0000;
    assert Pow2(43) == 0x800_0000_0000;
    assert Pow2(44) == 0x1000_0000_0000;
    assert Pow2(45) == 0x2000_0000_0000;
    assert Pow2(46) == 0x4000_0000_0000;
    assert Pow2(47) == 0x8000_0000_0000;
    assert Pow2(48) == 0x1_0000_0000_0000;
  }

  lemma PowersFrom48()
    ensures Pow2(48) == 0x1_0000_0000_0000 && Pow2(49) == 0x2_0000_0000_0000 && Pow2(50) == 0x4_0000_0000_0000
    ensures Pow2(51) == 0x8_0000_0000_0000 && Pow2(52) == 0x10_0000_0000_0000 && Pow2(53) == 0x20_0000_0000_0000
    ensures Pow2(54) == 0x40_0000_0000_0000 && Pow2(55) == 0x80_0000_0000_0000 && Pow2(56) == 0x100_0000_0000_0000
    ensures Pow2(57) == 0x200_0000_0000_0000 && Pow2(58) == 0x400_0000_0000_0000
  {
    PowersFrom38();
    assert Pow2(48) == 0x1_0000_0000_0000;
    assert Pow2(49) == 0x2_0000_0000_0000;
    assert Pow2(50) == 0x4_0000_0000_0000;
    assert Pow2(51) == 0x8_0000_0000_0000;
    assert Pow2(52) == 0x10_0000_0000_0000;
    assert Pow2(53) == 0x20_0000_0000_0000;
    assert Pow2(54) == 0x40_0000_0000_0000;
    assert Pow2(55) == 0x80_0000_0000_0000;
    assert Pow2(56) == 0x100_0000_0000_0000;
    assert Pow2(57) == 0x200_0000_0000_0000;
    assert Pow2(58) == 0x400_0000_0000_0000;
  }

  /** For every number of attempts from 29 on, some draw gives a negative delay. */
  lemma MessageWraps(n: nat) returns (draw: nat)
    requires 29 <= n <= 54
    ensures draw < 10 && MessageDelay(draw, n) < 0
  {
    hide Pow2, Delay;
    PowersFrom28();
    PowersFrom38();
    PowersFrom48();
    match n
    case 29 => draw := 8; Negative(18, n, 0x2000_0000, SECOND, 5 * MINUTE, 0);
    case 30 => draw := 0; Negative(10, n, 0x4000_0000, SECOND, 5 * MINUTE, 0);
    case 31 => draw := 3; Negative(13, n, 0x8000_0000, SECOND, 5 * MINUTE, 1);
    case 32 => draw := 1; Negative(11, n, 0x1_0000_0000, SECOND, 5 * MINUTE, 2);
    case 33 => draw := 0; Negative(10, n, 0x2_0000_0000, SECOND, 5 * MINUTE, 4);
    case 34 => draw := 5; Negative(15, n, 0x4_0000_0000, SECOND, 5 * MINUTE, 13);
    case 35 => draw := 0; Negative(10, n, 0x8_0000_0000, SECOND, 5 * MINUTE, 18);
    case 36 => draw := 1; Negative(11, n, 0x10_0000_0000, SECOND, 5 * MINUTE, 40);
    case 37 => draw := 0; Negative(10, n, 0x20_0000_0000, SECOND, 5 * MINUTE, 74);
    case 38 => draw := 1; Negative(11, n, 0x40_0000_0000, SECOND, 5 * MINUTE, 163);
    case 39 => draw := 1; Negative(11, n, 0x80_0000_0000, SECOND, 5 * MINUTE, 327);
    case 40 => draw := 1; Negative(11, n, 0x100_0000_0000, SECOND, 5 * MINUTE, 655);
    case 41 => draw := 2; Negative(12, n, 0x200_0000_0000, SECOND, 5 * MINUTE, 1430);
    case 42 => draw := 1; Negative(11, n, 0x400_0000_0000, SECOND, 5 * MINUTE, 2622);
    case 43 => draw := 3; Negative(13, n, 0x800_0000_0000, SECOND, 5 * MINUTE, 6198);
    case 44 => draw := 0; Negative(10, n, 0x1000_0000_0000, SECOND, 5 * MINUTE, 9536);
    case 45 => draw := 1; Negative(11, n, 0x2000_0000_0000, SECOND, 5 * MINUTE, 20980);
    case 46 => draw := 0; Negative(10, n, 0x4000_0000_0000, SECOND, 5 * MINUTE, 38146);
    case 47 => draw := 0; Negative(10, n, 0x8000_0000_0000, SECOND, 5 * MINUTE, 76293);
    case 48 => draw := 0; Negative(10, n, 0x1_0000_0000_0000, SECOND, 5 * MINUTE, 152587);
    case 49 => draw := 0; Negative(10, n, 0x2_0000_0000_0000, SECOND, 5 * MINUTE, 305175);
    case 50 => draw := 0; Negative(10, n, 0x4_0000_0000_0000, SECOND, 5 * MINUTE, 610351);
    case 51 => draw := 2; Negative(12, n, 0x8_0000_0000_0000, SECOND, 5 * MINUTE, 1464843);
    case 52 => draw := 1; Negative(11, n, 0x10_0000_0000_0000, SECOND, 5 * MINUTE, 2685546);
    case 53 => draw := 0; Negative(10, n, 0x20_0000_0000_0000, SECOND, 5 * MINUTE, 4882812);
    case 54 => draw := 1; Negative(11, n, 0x40_0000_0000_0000, SECOND, 5 * MINUTE, 10742187);
  }

  /** Likewise for Diff, from 30 on. */
  lemma DiffWraps(n: nat) returns (draw: nat)
    requires 30 <= n <= 54
    ensures draw < 5 && DiffDelay(draw, n) < 0
  {
    hide Pow2, Delay;
    PowersFrom28();
    PowersFrom38();
    PowersFrom48();
    match n
    case 30 => draw := 4; Negative(9, n, 0x4000_0000, SECOND, 5 * MINUTE, 0);
    case 31 => draw := 0; Negative(5, n, 0x8000_0000, SECOND, 5 * MINUTE, 0);
    case 32 => draw := 2; Negative(7, n, 0x1_0000_0000, SECOND, 5 * MINUTE, 1);
    case 33 => draw := 1; Negative(6, n, 0x2_0000_0000, SECOND, 5 * MINUTE, 2);
    case 34 => draw := 0; Negative(5, n, 0x4_0000_0000, SECOND, 5 * MINUTE, 4);
    case 35 => draw := 3; Negative(8, n, 0x8_0000_0000, SECOND, 5 * MINUTE, 14);
    case 36 => draw := 0; Negative(5, n, 0x10_0000_0000, SECOND, 5 * MINUTE, 18);
    case 37 => draw := 1; Negative(6, n, 0x20_0000_0000, SECOND, 5 * MINUTE, 44);
    case 38 => draw := 0; Negative(5, n, 0x40_0000_0000, SECOND, 5 * MINUTE, 74);
    case 39 => draw := 1; Negative(6, n, 0x80_0000_0000, SECOND, 5 * MINUTE, 178);
    case 40 => draw := 1; Negative(6, n, 0x100_0000_0000, SECOND, 5 * MINUTE, 357);
    case 41 => draw := 3; Negative(8, n, 0x200_0000_0000, SECOND, 5 * MINUTE, 953);
    case 42 => draw := 1; Negative(6, n, 0x400_0000_0000, SECOND, 5 * MINUTE, 1430);
    case 43 => draw := 2; Negative(7, n, 0x800_0000_0000, SECOND, 5 * MINUTE, 3337);
    case 44 => draw := 2; Negative(7, n, 0x1000_0000_0000, SECOND, 5 * MINUTE, 6675);
    case 45 => draw := 0; Negative(5, n, 0x2000_0000_0000, SECOND, 5 * MINUTE, 9536);
    case 46 => draw := 2; Negative(7, n, 0x4000_0000_0000, SECOND, 5 * MINUTE, 26702);
    case 47 => draw := 0; Negative(5, n, 0x8000_0000_0000, SECOND, 5 * MINUTE, 38146);
    case 48 => draw := 0; Negative(5, n, 0x1_0000_0000_0000, SECOND, 5 * MINUTE, 76293);
    case 49 => draw := 0; Negative(5, n, 0x2_0000_0000_0000, SECOND, 5 * MINUTE, 152587);
    case 50 => draw := 0; Negative(5, n, 0x4_0000_0000_0000, SECOND, 5 * MINUTE, 305175);
    case 51 => draw := 0; Negative(5, n, 0x8_0000_0000_0000, SECOND, 5 * MINUTE, 610351);
    case 52 => draw := 1; Negative(6, n, 0x10_0000_0000_0000, SECOND, 5 * MINUTE, 1464843);
    case 53 => draw := 1; Negative(6, n, 0x20_0000_0000_0000, SECOND, 5 * MINUTE, 2929687);
    case 54 => draw := 0; Negative(5, n, 0x40_0000_0000_0000, SECOND, 5 * MINUTE, 4882812);
  }

  /** Likewise for an RPC, from 36 on. */
  lemma RpcWraps(n: nat) returns (draw: nat)
    requires 36 <= n <= 57
    ensures draw < 100 && RpcDelay(draw, n) < 0
  {
    hide Pow2, Delay;
    PowersFrom28();
    PowersFrom38();
    PowersFrom48();
    match n
    case 36 => draw := 35; Negative(135, n, 0x10_0000_0000, MILLISECOND, MINUTE, 0);
    case 37 => draw := 0; Negative(100, n, 0x20_0000_0000, MILLISECOND, MINUTE, 0);
    case 38 => draw := 1; Negative(101, n, 0x40_0000_0000, MILLISECOND, MINUTE, 1);
    case 39 => draw := 0; Negative(100, n, 0x80_0000_0000, MILLISECOND, MINUTE, 2);
    case 40 => draw := 0; Negative(100, n, 0x100_0000_0000, MILLISECOND, MINUTE, 5);
    case 41 => draw := 0; Negative(100, n, 0x200_0000_0000, MILLISECOND, MINUTE, 11);
    case 42 => draw := 0; Negative(100, n, 0x400_0000_0000, MILLISECOND, MINUTE, 23);
    case 43 => draw := 0; Negative(100, n, 0x800_0000_0000, MILLISECOND, MINUTE, 47);
    case 44 => draw := 8; Negative(108, n, 0x1000_0000_0000, MILLISECOND, MINUTE, 102);
    case 45 => draw := 0; Negative(100, n, 0x2000_0000_0000, MILLISECOND, MINUTE, 190);
    case 46 => draw := 3; Negative(103, n, 0x4000_0000_0000, MILLISECOND, MINUTE, 392);
    case 47 => draw := 0; Negative(100, n, 0x8000_0000_0000, MILLISECOND, MINUTE, 762);
    case 48 => draw := 0; Negative(100, n, 0x1_0000_0000_0000, MILLISECOND, MINUTE, 1525);
    case 49 => draw := 0; Negative(100, n, 0x2_0000_0000_0000, MILLISECOND, MINUTE, 3051);
    case 50 => draw := 0; Negative(100, n, 0x4_0000_0000_0000, MILLISECOND, MINUTE, 6103);
    case 51 => draw := 7; Negative(107, n, 0x8_0000_0000_0000, MILLISECOND, MINUTE, 13061);
    case 52 => draw := 4; Negative(104, n, 0x10_0000_0000_0000, MILLISECOND, MINUTE, 25390);
    case 53 => draw := 2; Negative(102, n, 0x20_0000_0000_0000, MILLISECOND, MINUTE, 49804);
    case 54 => draw := 1; Negative(101, n, 0x40_0000_0000_0000, MILLISECOND, MINUTE, 98632);
    case 55 => draw := 0; Negative(100, n, 0x80_0000_0000_0000, MILLISECOND, MINUTE, 195312);
    case 56 => draw := 2; Negative(102, n, 0x100_0000_0000_0000, MILLISECOND, MINUTE, 398437);
    case 57 => draw := 1; Negative(101, n, 0x200_0000_0000_0000, MILLISECOND, MINUTE, 789062);
  }

  /**
   * Per message: every draw gives exactly min(5 min, base * 2^n s), and a positive
   * delay, if and only if n <= 28; beyond, some draw gives none, and from n = 55
   * on no draw gives any.
   */
  lemma MessageDelays(n: nat)
    ensures (forall draw: nat :: draw < 10 ==>
               MessageDelay(draw, n) == Ideal(10 + draw, n, SECOND, 5 * MINUTE) && 0 < MessageDelay(draw, n))
            <==> n <= 28
    ensures n > 28 ==> exists draw: nat :: draw < 10 && MessageDelay(draw, n) <= 0
    ensures n >= 55 ==> forall draw: nat :: draw < 10 ==> MessageDelay(draw, n) == 0
  {
    hide Pow2, Delay, Ideal;
    if n <= 28 {
      PowersFrom28();
      ExactUpTo(10, 19, 28, n, SECOND, 5 * MINUTE);
      forall draw: nat | draw < 10
        ensures MessageDelay(draw, n) == Ideal(10 + draw, n, SECOND, 5 * MINUTE) && 0 < MessageDelay(draw, n)
      {
        assert 10 <= 10 + draw <= 19;
      }
    } else if n < 55 {
      var draw := MessageWraps(n);
    } else {
      PowersFrom48();
      forall draw: nat | draw < 10
        ensures MessageDelay(draw, n) == 0
      {
        ZeroDelay(10 + draw, 55, n, SECOND, 5 * MINUTE, 1953125);
      }
      assert MessageDelay(0, n) == 0;
    }
  }

  /**
   * Diff: likewise, if and only if n <= 29, and from n = 55 on no draw gives any
   * delay.
   */
  lemma DiffDelays(n: nat)
    ensures (forall draw: nat :: draw < 5 ==>
               DiffDelay(draw, n) == Ideal(5 + draw, n, SECOND, 5 * MINUTE) && 0 < DiffDelay(draw, n))
            <==> n <= 29
    ensures n > 29 ==> exists draw: nat :: draw < 5 && DiffDelay(draw, n) <= 0
    ensures n >= 55 ==> forall draw: nat :: draw < 5 ==> DiffDelay(draw, n) == 0
  {
    hide Pow2, Delay, Ideal;
    if n <= 29 {
      PowersFrom28();
      ExactUpTo(5, 9, 29, n, SECOND, 5 * MINUTE);
      forall draw: nat | draw < 5
        ensures DiffDelay(draw, n) == Ideal(5 + draw, n, SECOND, 5 * MINUTE) && 0 < DiffDelay(draw, n)
      {
        assert 5 <= 5 + draw <= 9;
      }
    } else if n < 55 {
      var draw := DiffWraps(n);
    } else {
      PowersFrom48();
      forall draw: nat | draw < 5
        ensures DiffDelay(draw, n) == 0
      {
        ZeroDelay(5 + draw, 55, n, SECOND, 5 * MINUTE, 1953125);
      }
      assert DiffDelay(0, n) == 0;
    }
  }

  /**
   * RPC: likewise with min(1 min, base * 2^n ms), if and only if n <= 35, and from
   * n = 58 on no draw gives any delay.
   */
  lemma RpcDelays(n: nat)
    ensures (forall draw: nat :: draw < 100 ==>
               RpcDelay(draw, n) == Ideal(100 + draw, n, MILLISECOND, MINUTE) && 0 < RpcDelay(draw, n))
            <==> n <= 35
    ensures n > 35 ==> exists draw: nat :: draw < 100 && RpcDelay(draw, n) <= 0
    ensures n >= 58 ==> forall draw: nat :: draw < 100 ==> RpcDelay(draw, n) == 0
  {
    hide Pow2, Delay, Ideal;
    if n <= 35 {
      PowersFrom28();
      ExactUpTo(100, 199, 35, n, MILLISECOND, MINUTE);
      forall draw: nat | draw < 100
        ensures RpcDelay(draw, n) == Ideal(100 + draw, n, MILLISECOND, MINUTE) && 0 < RpcDelay(draw, n)
      {
        assert 100 <= 100 + draw <= 199;
      }
    } else if n < 58 {
      var draw := RpcWraps(n);
    } else {
      PowersFrom48();
      forall draw: nat | draw < 100
        ensures RpcDelay(draw, n) == 0
      {
        ZeroDelay(100 + draw, 58, n, MILLISECOND, MINUTE, 15625);
      }
      assert RpcDelay(0, n) == 0;
    }
  }
}
