/** The number formats of the converter in exact arithmetic: E4M3 weights and block scales, E2M1 codes,
    E8M0 exponents. Codes are the bit patterns; rounding is to nearest with ties to even. */
module Nvfp4 {

  function Pow2(n: nat): (r: nat)
    ensures r >= 1
  {
    if n == 0 then 1 else 2 * Pow2(n - 1)
  }

  /** The magnitude of an E4M3 code (sign bit removed) in units of 2^-9, the smallest subnormal. */
  function Units(x: nat): nat {
    if x / 8 == 0 then x % 8 else (8 + x % 8) * Pow2(x / 8 - 1)
  }

  /** `fp8` */
  function Value8(x: nat): real {
    Units(x) as real / 512.0
  }

  /** `ldexp(1, k)` */
  function Exp2(k: int): (r: real)
    ensures r > 0.0
    decreases if k < 0 then -k else k
  {
    if k == 0 then 1.0 else if k > 0 then 2.0 * Exp2(k - 1) else Exp2(k + 1) / 2.0
  }

  lemma {:induction false} UnitsStep(x: nat)
    ensures Units(x) < Units(x + 1)
    ensures x >= 3 ==> 3 * Units(x + 1) <= 4 * Units(x)
  {
    if (x + 1) % 8 == 0 && x / 8 > 0 {
      assert (x + 1) / 8 == x / 8 + 1 && x % 8 == 7;
      assert Pow2(x / 8) == 2 * Pow2(x / 8 - 1);
    } else {
      assert x % 8 != 7 ==> (x + 1) / 8 == x / 8 && (x + 1) % 8 == x % 8 + 1;
    }
  }

  lemma {:induction false} UnitsIncrease(x: nat, y: nat)
    requires x < y
    ensures Units(x) < Units(y)
    decreases y - x
  {
    UnitsStep(x);
    if x + 1 < y {
      UnitsIncrease(x + 1, y);
    }
  }

  lemma Value8Increases(x: nat, y: nat)
    requires x < y
    ensures Value8(x) < Value8(y)
  {
    UnitsIncrease(x, y);
  }

  lemma Landmarks()
    ensures Value8(0) == 0.0 && Value8(1) == 1.0 / 512.0 && Value8(2) == 2.0 / 512.0 && Value8(3) == 3.0 / 512.0
    ensures Value8(56) == 1.0 && Value8(126) == 448.0
  {
    assert Pow2(6) == 64 by {
      assert Pow2(3) == 8;
    }
    assert Pow2(14) == 16384 by {
      assert Pow2(6) == 64;
      assert Pow2(10) == 1024;
    }
  }

  /** What determines the magnitudes: eighths of the smallest normal number up to twice that, and from there on
      eight codes further is twice as much. */
  lemma Value8Doubles(x: nat)
    ensures x < 16 ==> Value8(x) == x as real / 512.0
    ensures x >= 8 ==> Value8(x + 8) == 2.0 * Value8(x)
  {
    if x >= 8 {
      assert (x + 8) / 8 == x / 8 + 1 && (x + 8) % 8 == x % 8;
      assert Pow2((x + 8) / 8 - 1) == 2 * Pow2(x / 8 - 1);
      assert Units(x + 8) == 2 * Units(x);
    } else {
      assert Pow2(0) == 1;
    }
  }

  lemma Exp2Doubles(k: int)
    ensures Exp2(0) == 1.0 && Exp2(k + 1) == 2.0 * Exp2(k)
  {
  }

  function Abs(x: real): real {
    if x < 0.0 then -x else x
  }

  // ---------- block scales ----------

  /** `r` is the E4M3 code of a finite magnitude nearest to `x`, the even one in a tie. */
  ghost predicate Nearest8(x: real, r: nat) {
    r <= 126 && forall y: nat :: y <= 126 && y != r ==>
      Abs(Value8(r) - x) < Abs(Value8(y) - x) || (Abs(Value8(r) - x) == Abs(Value8(y) - x) && r % 2 == 0)
  }

  /** A value between two equally distant ones is closer than both. */
  lemma Between(a: real, m: real, b: real, x: real)
    requires a < m < b && Abs(a - x) == Abs(b - x)
    ensures Abs(m - x) < Abs(a - x)
  {
  }

  lemma OneNearest8(x: real, low: nat, high: nat)
    requires low < high <= 126 && Nearest8(x, low)
    ensures !Nearest8(x, high)
  {
    hide Value8, Abs;
    if Abs(Value8(low) - x) == Abs(Value8(high) - x) && low + 1 < high {
      Value8Increases(low, low + 1);
      Value8Increases(low + 1, high);
      Between(Value8(low), Value8(low + 1), Value8(high), x);
    }
  }

  lemma Nearest8IsUnique(x: real, r: nat, s: nat)
    requires Nearest8(x, r) && Nearest8(x, s)
    ensures r == s
  {
    if r < s {
      OneNearest8(x, r, s);
    } else if s < r {
      OneNearest8(x, s, r);
    }
  }

  function Clamp(x: real): real {
    if x < 1.0 / 512.0 then 1.0 / 512.0 else if x > 448.0 then 448.0 else x
  }

  /** The two candidates around `x`, and the code's choice between them. */
  function Choose8(x: real, lo: nat): nat
    requires lo > 0
  {
    var a, b := x - Value8(lo - 1), Value8(lo) - x;
    if a < b || (a == b && (lo - 1) % 2 == 0) then lo - 1 else lo
  }

  lemma Choose8IsNearest(x: real, lo: nat)
    requires 0 < lo <= 126 && Value8(lo - 1) < x <= Value8(lo)
    ensures Nearest8(x, Choose8(x, lo))
  {
    hide Value8;
    var r := Choose8(x, lo);
    forall y: nat | y <= 126 && y != r
      ensures Abs(Value8(r) - x) < Abs(Value8(y) - x) || (Abs(Value8(r) - x) == Abs(Value8(y) - x) && r % 2 == 0)
    {
      if y < lo - 1 {
        Value8Increases(y, lo - 1);
      } else if y > lo {
        Value8Increases(lo, y);
      }
    }
  }

  /** `round8`: binary search for the first code not below `x`, then the nearer neighbour. */
  method Round8(unclamped: real) returns (r: nat)
    ensures Nearest8(Clamp(unclamped), r) && 1 <= r
  {
    Landmarks();
    var x := Clamp(unclamped);
    var lo, hi := 0, 126;
    while lo < hi
      invariant 0 <= lo <= hi <= 126 && x <= Value8(hi) && (lo > 0 ==> Value8(lo - 1) < x)
    {
      var mid := (lo + hi) / 2;
      if Value8(mid) < x {
        lo := mid + 1;
      } else {
        hi := mid;
      }
    }
    r := lo;
    if lo > 0 {
      r := Choose8(x, lo);
    }
    Choose8IsNearest(x, lo);
    NearestIsPositive(x, r);
  }

  lemma NearestIsPositive(x: real, r: nat)
    requires x >= 1.0 / 512.0 && Nearest8(x, r)
    ensures r >= 1
  {
    Landmarks();
    assert r == 0 ==> Abs(Value8(0) - x) > Abs(Value8(1) - x);
  }

  lemma {:induction false} Nearest8Exists(x: real, hi: nat)
    requires hi <= 126 && 0.0 < x <= Value8(hi)
    ensures exists r :: Nearest8(x, r)
    decreases hi
  {
    Landmarks();
    if Value8(hi - 1) < x {
      Choose8IsNearest(x, hi);
    } else {
      Nearest8Exists(x, hi - 1);
    }
  }

  /** The block scale code of an ideal scale. */
  ghost function ScaleCode(ideal: real): (r: nat)
    ensures Nearest8(Clamp(ideal), r) && 1 <= r <= 126
  {
    Landmarks();
    Nearest8Exists(Clamp(ideal), 126);
    var r :| Nearest8(Clamp(ideal), r);
    NearestIsPositive(Clamp(ideal), r);
    r
  }

  // ---------- value codes ----------

  /** E2M1 magnitudes, in halves. */
  function Halves(c: nat): nat
    requires c < 8
  {
    if c <= 4 then c else if c == 5 then 6 else if c == 6 then 8 else 12
  }

  function Value4(c: nat): real
    requires c < 8
  {
    Halves(c) as real / 2.0
  }

  ghost predicate Nearest4(x: real, r: nat) {
    r < 8 && forall y: nat :: y < 8 && y != r ==>
      Abs(Value4(r) - x) < Abs(Value4(y) - x) || (Abs(Value4(r) - x) == Abs(Value4(y) - x) && r % 2 == 0)
  }

  /** The rounding boundaries, the midpoints of neighbouring magnitudes. */
  function Bound(i: nat): real
    requires i < 7
  {
    (Value4(i) + Value4(i + 1)) / 2.0
  }

  lemma Bounds()
    ensures Bound(0) == 0.25 && Bound(1) == 0.75 && Bound(2) == 1.25 && Bound(3) == 1.75
    ensures Bound(4) == 2.5 && Bound(5) == 3.5 && Bound(6) == 5.0
  {
  }

  predicate Passes(x: real, i: nat)
    requires i < 7
  {
    x > Bound(i) || (x == Bound(i) && i % 2 == 1)
  }

  /** `round4`: count the boundaries that `x` passes. */
  method Round4(x: real) returns (i: nat)
    requires x >= 0.0
    ensures i == ValueCode(x)
  {
    i := 0;
    while i < 7 && Passes(x, i)
      invariant i <= 7 && forall n: nat :: n < i ==> Passes(x, n)
    {
      i := i + 1;
    }
    CountIsNearest(x, i);
    Nearest4IsUnique(x, i, ValueCode(x));
  }

  lemma CountIsNearest(x: real, i: nat)
    requires x >= 0.0 && i <= 7 && (forall n: nat :: n < i ==> Passes(x, n)) && (i < 7 ==> !Passes(x, i))
    ensures Nearest4(x, i)
  {
    Bounds();
    assert i > 0 ==> Passes(x, i - 1);
  }

  lemma Value4Increases(x: nat, y: nat)
    requires x < y < 8
    ensures Value4(x) < Value4(y)
  {
  }

  lemma OneNearest4(x: real, low: nat, high: nat)
    requires low < high <= 7 && Nearest4(x, low)
    ensures !Nearest4(x, high)
  {
    hide Value4, Abs;
    if Abs(Value4(low) - x) == Abs(Value4(high) - x) && low + 1 < high {
      Value4Increases(low, low + 1);
      Value4Increases(low + 1, high);
      Between(Value4(low), Value4(low + 1), Value4(high), x);
    }
  }

  lemma Nearest4IsUnique(x: real, r: nat, s: nat)
    requires Nearest4(x, r) && Nearest4(x, s)
    ensures r == s
  {
    if r < s {
      OneNearest4(x, r, s);
    } else if s < r {
      OneNearest4(x, s, r);
    }
  }

  lemma {:induction false} Nearest4Exists(x: real, i: nat)
    requires x >= 0.0 && i <= 7 && forall n: nat :: n < i ==> Passes(x, n)
    ensures exists r :: Nearest4(x, r)
    decreases 7 - i
  {
    if i < 7 && Passes(x, i) {
      Nearest4Exists(x, i + 1);
    } else {
      CountIsNearest(x, i);
    }
  }

  ghost function ValueCode(x: real): (r: nat)
    requires x >= 0.0
    ensures Nearest4(x, r) && r < 8
  {
    Nearest4Exists(x, 0);
    var r :| Nearest4(x, r);
    r
  }

  /** `np.searchsorted` on the boundaries (how many lie below `x`), adjusted at three of the midpoints. */
  function SearchSorted(x: real, i: nat): nat
    requires i <= 7
    decreases 7 - i
  {
    if i < 7 && Bound(i) < x then SearchSorted(x, i + 1) else i
  }

  function SearchAndAdjust(x: real): nat {
    SearchSorted(x, 0) + (if x == 0.75 || x == 1.75 || x == 3.5 then 1 else 0)
  }

  lemma {:induction false} SearchSortedCounts(x: real, i: nat)
    requires i <= 7 && forall n: nat :: n < i ==> Bound(n) < x
    ensures var r := SearchSorted(x, i);
      r <= 7 && (forall n: nat :: n < r ==> Bound(n) < x) && (r < 7 ==> x <= Bound(r))
    decreases 7 - i
  {
    if i < 7 && Bound(i) < x {
      SearchSortedCounts(x, i + 1);
    }
  }

  /** The independent reference form picks the same code. */
  lemma ReferenceAgrees(x: real)
    requires x >= 0.0
    ensures SearchAndAdjust(x) == ValueCode(x)
  {
    Bounds();
    SearchSortedCounts(x, 0);
    var r := SearchSorted(x, 0);
    assert r > 0 ==> Bound(r - 1) < x;
    CountIsNearest(x, SearchAndAdjust(x));
    Nearest4IsUnique(x, SearchAndAdjust(x), ValueCode(x));
  }

  /** The rounding error of a nonnegative ratio: within one up to 7, exactly the excess beyond. */
  lemma ValueError(x: real)
    requires x >= 0.0
    ensures Abs(Value4(ValueCode(x)) - x) <= 1.0 <==> x <= 7.0
    ensures x >= 6.0 ==> ValueCode(x) == 7 && Abs(Value4(ValueCode(x)) - x) == x - 6.0
  {
    Bounds();
    var c := ValueCode(x);
    assert Value4(7) == 6.0 && Value4(6) == 4.0;
    if x >= 6.0 {
      assert Nearest4(x, 7);
      Nearest4IsUnique(x, 7, c);
    } else {
      var n := if x < 0.5 then 0 else if x < 1.0 then 1 else if x < 1.5 then 2 else if x < 2.0 then 3
               else if x < 3.0 then 4 else if x < 4.0 then 5 else if x < 5.0 then 6 else 7;
      assert Abs(Value4(n) - x) <= 1.0;
      assert n != c ==> Abs(Value4(c) - x) <= Abs(Value4(n) - x);
    }
  }
}
