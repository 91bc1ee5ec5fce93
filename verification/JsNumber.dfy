/** JavaScript numbers restricted to integers: IEEE 754 binary64 values, where every
    integer operation is exact arithmetic followed by rounding to 53 significant bits,
    ties to even. `Number(text)` of a stored bigint rounds in the same way. */
module JsNumber {

  /** Number.MAX_SAFE_INTEGER. */
  const MAX_SAFE := 0x1F_FFFF_FFFF_FFFF
  const TWO52 := 0x10_0000_0000_0000
  const TWO53 := 0x20_0000_0000_0000

  /** The distance between neighbouring doubles around magnitude `m` (at least 1). */
  function Spacing(m: nat): (u: nat)
    ensures u >= 1
  {
    if m < TWO53 then 1 else 2 * Spacing(m / 2)
  }

  function RoundMagnitude(m: nat): (r: int)
    ensures r >= 0
  {
    var u := Spacing(m);
    var q, r := m / u, m % u;
    if 2 * r < u || (2 * r == u && q % 2 == 0) then q * u else (q + 1) * u
  }

  /** The double nearest to the integer `n`. */
  function Round(n: int): int {
    if n < 0 then -RoundMagnitude(-n) else RoundMagnitude(n)
  }

  /** `Number(...)` applied to a bigint column, which the driver returns as text. */
  function Number(stored: int): int {
    Round(stored)
  }

  function Add(a: int, b: int): int {
    Round(a + b)
  }

  function Sub(a: int, b: int): int {
    Round(a - b)
  }

  lemma RoundExact(n: int)
    requires -9_007_199_254_740_992 <= n <= 9_007_199_254_740_992
    ensures Round(n) == n
  {
    var m := if n < 0 then -n else n;
    if m == TWO53 {
      assert Spacing(m / 2) == 1;
      assert Spacing(m) == 2;
      assert m == (m / 2) * 2;
    }
  }

  /** Rounding a result never changes whether it is negative. (The operands may have been
      rounded before: `OverdraftNeedsDouble`.) */
  lemma RoundKeepsSign(n: int)
    ensures Round(n) < 0 <==> n < 0
  {
    if n < 0 {
      RoundMagnitudePositive(-n);
    } else {
      assert RoundMagnitude(n) >= 0;
    }
  }

  lemma RoundMagnitudePositive(m: nat)
    requires m >= 1
    ensures RoundMagnitude(m) >= 1
  {
    if m >= TWO53 {
      RoundAtLeast(m);
    }
  }

  lemma {:induction false} SpacingScale(m: nat)
    requires m >= TWO53
    ensures Spacing(m) >= 2 && TWO52 * Spacing(m) <= m
  {
    if m / 2 >= TWO53 {
      SpacingScale(m / 2);
    } else {
      assert Spacing(m / 2) == 1;
    }
  }

  lemma DivideScaled(m: nat, u: int, k: nat)
    requires u >= 1 && k * u <= m
    ensures m / u >= k
  {
    var q, r := m / u, m % u;
    assert m == q * u + r && r < u;
    assert (q + 1) * u == q * u + u;
    if q < k {
      Scale(q + 1, k, u);
    }
  }

  lemma Scale(a: int, b: int, u: int)
    requires a <= b && u >= 0
    ensures a * u <= b * u
  {
  }

  /** Rounding does not bring a number of at least 2^53 below it. */
  lemma RoundAtLeast(m: nat)
    requires m >= TWO53
    ensures RoundMagnitude(m) >= TWO53
  {
    SpacingScale(m);
    var u := Spacing(m);
    DivideScaled(m, u, TWO52);
    Scale(TWO52, m / u, u);
    Scale(TWO52, m / u + 1, u);
  }

  /** An integer that is a double: rounding leaves it alone. */
  predicate Representable(n: int) {
    Round(n) == n
  }

  lemma {:induction false} SpacingUpper(m: nat)
    ensures m < TWO53 * Spacing(m)
  {
    if m < TWO53 {
    } else {
      SpacingUpper(m / 2);
    }
  }

  /** All doubles between two powers of two are equally spaced. */
  lemma {:induction false} SpacingOfMultiple(q: nat, m: nat)
    requires TWO52 <= q < TWO53
    ensures Spacing(q * Spacing(m)) == Spacing(m)
  {
    if m < TWO53 {
      assert q * Spacing(m) == q;
    } else {
      var u := Spacing(m / 2);
      SpacingOfMultiple(q, m / 2);
      assert q * Spacing(m) == 2 * (q * u);
      Scale(TWO52, q, u);
      assert q * Spacing(m) >= TWO53 && q * Spacing(m) / 2 == q * u;
    }
  }

  lemma SpacingOfTop(m: nat)
    ensures Spacing(TWO53 * Spacing(m)) == 2 * Spacing(m)
  {
    var u := Spacing(m);
    SpacingOfMultiple(TWO52, m);
    assert TWO53 * u == 2 * (TWO52 * u) && TWO53 * u / 2 == TWO52 * u;
  }

  lemma MultipleRoundsToItself(q: nat, u: nat)
    requires u >= 1 && Spacing(q * u) == u
    ensures RoundMagnitude(q * u) == q * u
  {
    assert q * u == q * u + 0;
    DivideMultiple(q, u);
  }

  lemma DivideMultiple(q: nat, u: nat)
    requires u >= 1
    ensures q * u / u == q && q * u % u == 0
  {
    var d, r := q * u / u, q * u % u;
    assert q * u == d * u + r;
    assert (q - d) * u == r;
    if q - d >= 1 {
      Scale(1, q - d, u);
    } else if q - d <= -1 {
      Scale(q - d, -1, u);
    }
  }

  lemma MagnitudeRepresentable(m: nat)
    ensures RoundMagnitude(RoundMagnitude(m)) == RoundMagnitude(m)
  {
    if m >= TWO53 {
      var u, q := Spacing(m), m / Spacing(m);
      SpacingScale(m);
      SpacingUpper(m);
      DivideScaled(m, u, TWO52);
      QuotientBelow(m, u, TWO53);
      var r := RoundMagnitude(m);
      assert r == q * u || r == (q + 1) * u;
      var k := if r == q * u then q else q + 1;
      if k < TWO53 {
        SpacingOfMultiple(k, m);
        MultipleRoundsToItself(k, u);
      } else {
        SpacingOfTop(m);
        assert r == TWO52 * (2 * u);
        MultipleRoundsToItself(TWO52, 2 * u);
      }
    }
  }

  lemma QuotientBelow(m: nat, u: nat, k: nat)
    requires u >= 1 && m < k * u
    ensures m / u < k
  {
    var q := m / u;
    assert q * u <= m;
    if q >= k {
      Scale(k, q, u);
    }
  }

  /** What was rounded once is a double. */
  lemma RoundTwice(n: int)
    ensures Representable(Round(n))
  {
    MagnitudeRepresentable(if n < 0 then -n else n);
  }

  // ---- Rounding is what IEEE 754 demands: the nearest double ----

  function Pow2(e: nat): (p: nat)
    ensures p >= 1
  {
    if e == 0 then 1 else 2 * Pow2(e - 1)
  }

  predicate Has53Bits(d: int, q: int, e: nat) {
    -TWO53 <= q <= TWO53 && d == q * Pow2(e)
  }

  /** A double that is an integer: at most 53 significant bits. */
  ghost predicate IsDouble(d: int) {
    exists q, e :: Has53Bits(d, q, e)
  }

  function Distance(a: int, b: int): nat {
    if a < b then b - a else a - b
  }

  predicate IsMultiple(d: int, j: int, u: int) {
    d == j * u
  }

  lemma {:induction false} SpacingIsPower(m: nat) returns (e: nat)
    ensures Spacing(m) == Pow2(e)
  {
    if m < TWO53 {
      e := 0;
    } else {
      e := SpacingIsPower(m / 2);
      e := e + 1;
    }
  }

  lemma Regroup(a: int, b: int, c: int)
    ensures a * b * c == a * (b * c)
  {
  }

  lemma {:induction false} PowersMultiply(a: nat, b: nat)
    requires a <= b
    ensures Pow2(b) == Pow2(b - a) * Pow2(a)
  {
    if a == b {
    } else {
      PowersMultiply(a, b - 1);
      Regroup(2, Pow2(b - 1 - a), Pow2(a));
    }
  }

  lemma HalfPower(e: nat, k: nat)
    requires e < k
    ensures 2 * Pow2(e) <= Pow2(k)
  {
    PowersMultiply(e + 1, k);
    Scale(1, Pow2(k - e - 1), Pow2(e + 1));
  }

  /** A double is a multiple of the spacing around `m`, or so fine that it lies below all those around `m`. */
  lemma OnGridOrBelow(m: nat, d: int, q: int, e: nat)
    requires m >= TWO53 && Has53Bits(d, q, e)
    ensures (exists j :: IsMultiple(d, j, Spacing(m))) || d <= TWO52 * Spacing(m)
  {
    var u := Spacing(m);
    var k := SpacingIsPower(m);
    if e >= k {
      PowersMultiply(k, e);
      Regroup(q, Pow2(e - k), u);
      assert IsMultiple(d, q * Pow2(e - k), u);
    } else {
      HalfPower(e, k);
      Scale(q, TWO53, Pow2(e));
    }
  }

  lemma GridDistance(m: nat, u: nat, below: nat, r: nat, j: int)
    requires m == below * u + r && r < u
    ensures Distance(j * u, m) >= if 2 * r <= u then r else u - r
  {
    assert (below + 1) * u == below * u + u;
    if j <= below {
      Scale(j, below, u);
    } else {
      Scale(below + 1, j, u);
    }
  }

  /** The two candidates: the multiples of the spacing on either side. */
  lemma Candidates(m: nat) returns (u: nat, below: nat, r: nat)
    ensures u == Spacing(m) && below == m / u && m == below * u + r && r < u
    ensures RoundMagnitude(m)
         == if 2 * r < u || (2 * r == u && below % 2 == 0) then below * u else below * u + u
    ensures IsMultiple(RoundMagnitude(m), if RoundMagnitude(m) == below * u then below else below + 1, u)
  {
    u := Spacing(m);
    below, r := m / u, m % u;
    assert (below + 1) * u == below * u + u;
  }

  lemma MagnitudeNearest(m: nat, d: int)
    requires IsDouble(d)
    ensures Distance(RoundMagnitude(m), m) <= Distance(d, m)
  {
    hide RoundMagnitude, Spacing, Pow2;
    var u, below, r := Candidates(m);
    if m < TWO53 {
      RoundExact(m);
    } else {
      var q, e :| Has53Bits(d, q, e);
      OnGridOrBelow(m, d, q, e);
      if j :| IsMultiple(d, j, u) {
        GridDistance(m, u, below, r, j);
      } else {
        SpacingScale(m);
        DivideScaled(m, u, TWO52);
        Scale(TWO52, below, u);
      }
    }
  }

  lemma MagnitudeIsDouble(m: nat)
    ensures IsDouble(RoundMagnitude(m)) && IsDouble(-RoundMagnitude(m))
  {
    hide RoundMagnitude;
    var u, below, r := Candidates(m);
    var k := SpacingIsPower(m);
    hide Spacing, Pow2;
    SpacingUpper(m);
    QuotientBelow(m, u, TWO53);
    var q: int := if RoundMagnitude(m) == below * u then below else below + 1;
    assert Has53Bits(RoundMagnitude(m), q, k) && Has53Bits(-RoundMagnitude(m), -q, k);
  }

  /** `Round` gives a double, and no double is nearer. */
  lemma RoundNearest(n: int, d: int)
    requires IsDouble(d)
    ensures IsDouble(Round(n)) && Distance(Round(n), n) <= Distance(d, n)
  {
    hide RoundMagnitude;
    MagnitudeIsDouble(if n < 0 then -n else n);
    var q, e :| Has53Bits(d, q, e);
    assert Has53Bits(-d, -q, e);
    if n < 0 {
      MagnitudeNearest(-n, -d);
    } else {
      MagnitudeNearest(n, d);
    }
  }

  /** It is never off by more than half the spacing, and halfway it gives the even multiple. */
  lemma HalfwayEven(n: int)
    ensures var u := Spacing(Distance(n, 0));
      && 2 * Distance(Round(n), n) <= u
      && (2 * Distance(Round(n), n) == u ==> exists j :: j % 2 == 0 && IsMultiple(Round(n), j, u))
  {
    hide RoundMagnitude, Spacing;
    var u, below, r := Candidates(Distance(n, 0));
    if 2 * r == u {
      var q: int := if below % 2 == 0 then below else below + 1;
      var j := if n < 0 then -q else q;
      assert j % 2 == 0 && IsMultiple(Round(n), j, u);
    }
  }

  /** The overdraft check decides exactly for a balance that is a double, whatever the amount. */
  lemma OverdraftExact(balance: int, amount: int)
    requires Representable(balance)
    ensures Sub(Number(balance), amount) < 0 <==> balance < amount
  {
    RoundKeepsSign(balance - amount);
  }

  /** For a balance that is not a double it can let a shortfall of one pass. */
  lemma OverdraftNeedsDouble()
    ensures !Representable(TWO53 + 3)
    ensures Sub(Number(TWO53 + 3), TWO53 + 4) == 0
  {
    var m := TWO53 + 3;
    assert Spacing(m / 2) == 1;
    assert Spacing(m) == 2;
    assert m / 2 == TWO52 + 1 && m % 2 == 1 && (TWO52 + 1) % 2 == 1;
    assert Round(m) == TWO53 + 4;
  }

  /** One above 2^53 there is no double: the limit in `RoundExact` is sharp. */
  lemma RoundLosesOne()
    ensures Round(9_007_199_254_740_993) == 9_007_199_254_740_992
  {
    var m := TWO53 + 1;
    assert Spacing(m / 2) == 1;
    assert Spacing(m) == 2;
    assert m == (m / 2) * 2 + 1;
    assert (m / 2) % 2 == 0;
  }
}
