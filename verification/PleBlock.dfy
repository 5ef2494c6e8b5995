/** Direct quantization of one block, and how far a decoded weight can be from its source. Masks of low
    bits are remainders; codes occupy disjoint nibbles. */
module PleBlock {
  import opened Nvfp4

  function Max(a: nat, b: nat): nat {
    if a < b then b else a
  }

  /** The largest magnitude code of a run of weights. */
  function MaxCode(block: seq<nat>): (m: nat)
    ensures m < 128
  {
    if block == [] then 0 else Max(MaxCode(block[..|block| - 1]), block[|block| - 1] % 128)
  }

  lemma {:induction false} MaxCodeBounds(block: seq<nat>, i: nat)
    requires i < |block|
    ensures block[i] % 128 <= MaxCode(block)
  {
    if i < |block| - 1 {
      MaxCodeBounds(block[..|block| - 1], i);
    }
  }

  lemma {:induction false} MaxCodeAttained(block: seq<nat>)
    requires block != []
    ensures exists i :: 0 <= i < |block| && block[i] % 128 == MaxCode(block)
  {
    var rest, last := block[..|block| - 1], block[|block| - 1];
    assert rest == [] ==> MaxCode(rest) == 0;
    if MaxCode(block) == last % 128 {
      assert block[|block| - 1] % 128 == MaxCode(block);
    } else {
      MaxCodeAttained(rest);
      var i :| 0 <= i < |rest| && rest[i] % 128 == MaxCode(rest);
      assert block[i] % 128 == MaxCode(block);
    }
  }

  // ---------- direct quantization of one block ----------

  /** The magnitude of a weight byte under a block exponent. */
  function Magnitude(e: nat, v: nat): (r: real)
    ensures r >= 0.0
  {
    Value8(v % 128) * Exp2(e - 127)
  }

  function Source(e: nat, v: nat): real {
    if v >= 128 then -Magnitude(e, v) else Magnitude(e, v)
  }

  function Ideal(global: real, a: real): real
    requires global > 0.0
  {
    if a > 0.0 then a / (6.0 * global) else 1.0
  }

  /** The scale code of a block whose largest magnitude is `a`. */
  ghost function BlockScale(global: real, a: real): (r: nat)
    requires global > 0.0
    ensures 1 <= r <= 126
  {
    ScaleCode(Ideal(global, a))
  }

  function Divisor(global: real, scale: nat): (r: real)
    requires global > 0.0 && 1 <= scale
    ensures r > 0.0
  {
    Value8Increases(0, scale);
    Landmarks();
    Value8(scale) * global
  }

  /** The four-bit code of a weight: the nearest magnitude, and a sign unless the weight is zero. */
  ghost function Code(global: real, scale: nat, e: nat, v: nat): (r: nat)
    requires global > 0.0 && 1 <= scale
    ensures r < 16
  {
    var ratio := Magnitude(e, v) / Divisor(global, scale);
    ValueCode(ratio) + (if v >= 128 && v % 128 != 0 then 8 else 0)
  }

  function Decode(global: real, scale: nat, code: nat): real
    requires code < 16
  {
    var magnitude := Value4(code % 8) * Value8(scale) * global;
    if code >= 8 then -magnitude else magnitude
  }

  /** The largest magnitude of the block at `b`, sixteen weights long. */
  function Block(w: seq<nat>, b: nat): seq<nat>
    requires b * 16 + 16 <= |w|
  {
    w[b * 16..b * 16 + 16]
  }

  ghost predicate IsLargest(e: nat, block: seq<nat>, a: real) {
    (forall i :: 0 <= i < |block| ==> Magnitude(e, block[i]) <= a) &&
    (exists i :: 0 <= i < |block| && Magnitude(e, block[i]) == a)
  }

  lemma MagnitudeGrows(e: nat, u: nat, v: nat)
    requires u % 128 <= v % 128
    ensures Magnitude(e, u) <= Magnitude(e, v)
    ensures u % 128 == v % 128 ==> Magnitude(e, u) == Magnitude(e, v)
  {
    hide Value8, Exp2;
    if u % 128 < v % 128 {
      Value8Increases(u % 128, v % 128);
      Product(Value8(u % 128), Value8(v % 128), Exp2(e - 127));
    }
  }

  lemma Product(a: real, b: real, d: real)
    requires d > 0.0
    ensures a * d <= b * d <==> a <= b
  {
    assert b * d - a * d == (b - a) * d;
    if a <= b {
      assert (b - a) * d >= 0.0;
    } else {
      assert (a - b) * d > 0.0;
    }
  }

  /** The maximum over magnitude codes finds the largest magnitude. */
  lemma LargestByCode(e: nat, block: seq<nat>)
    requires block != []
    ensures IsLargest(e, block, Magnitude(e, MaxCode(block)))
  {
    hide Magnitude, MaxCode;
    forall i | 0 <= i < |block| ensures Magnitude(e, block[i]) <= Magnitude(e, MaxCode(block)) {
      MaxCodeBounds(block, i);
      MagnitudeGrows(e, block[i], MaxCode(block));
    }
    MaxCodeAttained(block);
    var i :| 0 <= i < |block| && block[i] % 128 == MaxCode(block);
    MagnitudeGrows(e, block[i], MaxCode(block));
  }

  // ---------- the independent reference ----------

  /** `x` is the largest absolute value of a block, as decoded. */
  ghost predicate IsLargestAbsolute(e: nat, block: seq<nat>, x: real) {
    (forall i :: 0 <= i < |block| ==> Abs(Source(e, block[i])) <= x) &&
    (exists i :: 0 <= i < |block| && Abs(Source(e, block[i])) == x)
  }

  /** Zero ideal scales become one after the division. */
  function ReferenceIdeal(global: real, x: real): real
    requires global > 0.0
  {
    var ideal := x / (6.0 * global);
    if ideal == 0.0 then 1.0 else ideal
  }

  /** Search on the boundaries and adjust, with the sign of the normalized value. */
  function ReferenceCode(global: real, scale: nat, e: nat, v: nat): nat
    requires global > 0.0 && 1 <= scale
  {
    var normalized := Source(e, v) / Divisor(global, scale);
    SearchAndAdjust(Abs(normalized)) + (if normalized < 0.0 then 8 else 0)
  }

  lemma ReferenceScaleAgrees(global: real, e: nat, block: seq<nat>, x: real, r: nat)
    requires global > 0.0 && block != [] && IsLargestAbsolute(e, block, x) && Nearest8(Clamp(ReferenceIdeal(global, x)), r)
    ensures r == BlockScale(global, Magnitude(e, MaxCode(block)))
  {
    hide Magnitude, MaxCode, ScaleCode, Nearest8, Clamp;
    LargestByCode(e, block);
    forall v ensures Abs(Source(e, v)) == Magnitude(e, v) {
    }
    assert x == Magnitude(e, MaxCode(block));
    RatioCompare(x, 6.0 * global, 0.0);
    Nearest8IsUnique(Clamp(Ideal(global, x)), r, ScaleCode(Ideal(global, x)));
  }

  lemma ReferenceCodeAgrees(global: real, scale: nat, e: nat, v: nat)
    requires global > 0.0 && 1 <= scale
    ensures ReferenceCode(global, scale, e, v) == Code(global, scale, e, v)
  {
    hide Magnitude, Divisor, SearchAndAdjust, ValueCode;
    var m, d := Magnitude(e, v), Divisor(global, scale);
    SignedRatio(m, d);
    ReferenceAgrees(m / d);
    MagnitudeSign(e, v);
  }

  lemma SignedRatio(m: real, d: real)
    requires d > 0.0 && m >= 0.0
    ensures m / d >= 0.0 && -m / d == -(m / d) && (m / d > 0.0 <==> m > 0.0)
  {
    assert (m / d) * d == m;
  }

  lemma MagnitudeSign(e: nat, v: nat)
    ensures Magnitude(e, v) > 0.0 <==> v % 128 > 0
  {
    hide Value8, Exp2;
    Landmarks();
    assert 0.0 * Exp2(e - 127) == 0.0;
    if v % 128 > 0 {
      Value8Increases(0, v % 128);
      Product(Value8(v % 128), 0.0, Exp2(e - 127));
    }
  }

  // ---------- the error bound ----------

  /** How far an E4M3 scale may lie below the ideal one. */
  lemma ScaleIsClose(ideal: real)
    requires 0.0 < ideal <= 448.0
    ensures var sc := ScaleCode(ideal);
      && (sc >= 3 ==> 6.0 * ideal <= 7.0 * Value8(sc))
      && (sc == 2 ==> 2.0 * ideal <= 2.5 * Value8(2))
      && (sc == 1 ==> 2.0 * ideal <= 3.0 * Value8(1))
  {
    var sc, x := ScaleCode(ideal), Clamp(ideal);
    Landmarks();
    if sc < 126 {
      UnitsStep(sc);
      Value8Increases(sc, sc + 1);
      assert Abs(Value8(sc) - x) <= Abs(Value8(sc + 1) - x);
      assert 2.0 * x <= Value8(sc) + Value8(sc + 1);
    }
  }

  /** The ideal scale is positive, and within the codes' range exactly when the global scale covers the block. */
  lemma IdealIsBounded(global: real, a: real)
    requires global > 0.0 && a >= 0.0
    ensures 0.0 < Ideal(global, a) && (Ideal(global, a) <= 448.0 <==> a <= 2688.0 * global)
  {
    RatioCompare(a, 6.0 * global, 448.0);
    RatioCompare(a, 6.0 * global, 0.0);
  }

  /** With the ideal scale at most 448, every weight of the block is within nine divisors, within seven
      and a half unless the scale is the smallest, and within seven unless it is one of the two smallest. */
  lemma RatioIsBounded(global: real, a: real, e: nat, v: nat)
    requires global > 0.0 && Magnitude(e, v) <= a <= 2688.0 * global
    ensures var sc := BlockScale(global, a); var d := Divisor(global, sc);
      && Magnitude(e, v) <= 9.0 * d && (sc >= 2 ==> Magnitude(e, v) <= 7.5 * d) && (sc >= 3 ==> Magnitude(e, v) <= 7.0 * d)
  {
    hide Magnitude, Value8, ScaleCode;
    var sc := BlockScale(global, a);
    var d := Divisor(global, sc);
    if a > 0.0 {
      var ideal := Ideal(global, a);
      IdealIsBounded(global, a);
      ScaleIsClose(ideal);
      ScaledUp(global, ideal, Value8(sc), a, d, 6.0, 7.0);
      ScaledUp(global, ideal, Value8(sc), a, d, 2.0, 2.5);
      ScaledUp(global, ideal, Value8(sc), a, d, 2.0, 3.0);
    }
  }

  lemma ScaledUp(global: real, ideal: real, s: real, a: real, d: real, p: real, q: real)
    requires global > 0.0 && ideal == a / (6.0 * global) && d == s * global && p > 0.0
    ensures p * ideal <= q * s ==> p * a <= 6.0 * q * d
  {
    assert ideal * (6.0 * global) == a;
    Product(p * ideal, q * s, global);
    assert p * a == 6.0 * (p * ideal * global);
    assert 6.0 * q * d == 6.0 * (q * s * global);
  }

  /** A ratio's rounding error, scaled back by the divisor. */
  lemma ErrorScales(m: real, d: real, c: real)
    requires d > 0.0
    ensures Abs(c * d - m) == Abs(c - m / d) * d
  {
    var r := m / d;
    assert r * d == m;
    assert (c - r) * d == c * d - m;
    if c - r < 0.0 {
      assert (c - r) * d < 0.0;
    } else {
      assert (c - r) * d >= 0.0;
    }
  }

  lemma RatioCompare(m: real, d: real, k: real)
    requires d > 0.0
    ensures m / d <= k <==> m <= k * d
  {
    var r := m / d;
    assert r * d == m;
    assert (k - r) * d == k * d - m;
    if r <= k {
      assert (k - r) * d >= 0.0;
    } else {
      assert (r - k) * d > 0.0;
    }
  }

  /** The decoded magnitude against the source magnitude. */
  ghost function MagnitudeError(global: real, sc: nat, e: nat, v: nat): real
    requires global > 0.0 && 1 <= sc
  {
    Abs(Value4(ValueCode(Magnitude(e, v) / Divisor(global, sc))) * Divisor(global, sc) - Magnitude(e, v))
  }

  lemma MagnitudeErrorBound(global: real, sc: nat, e: nat, v: nat)
    requires global > 0.0 && 1 <= sc && Magnitude(e, v) <= 9.0 * Divisor(global, sc)
    ensures var d, err := Divisor(global, sc), MagnitudeError(global, sc, e, v);
      && (err <= d <==> Magnitude(e, v) <= 7.0 * d) && err <= 3.0 * d
      && (Magnitude(e, v) <= 7.5 * d ==> err <= 1.5 * d)
  {
    hide Magnitude, Divisor, ValueCode, Value4;
    var m, d := Magnitude(e, v), Divisor(global, sc);
    SignedRatio(m, d);
    RatioError(m, d, m / d, Value4(ValueCode(m / d)));
  }

  lemma RatioError(m: real, d: real, r: real, c: real)
    requires d > 0.0 && 0.0 <= m <= 9.0 * d && r == m / d >= 0.0 && c == Value4(ValueCode(r))
    ensures var err := Abs(c * d - m);
      && (err <= d <==> m <= 7.0 * d) && err <= 3.0 * d && (m <= 7.5 * d ==> err <= 1.5 * d)
  {
    hide Value4, ValueCode, Abs;
    RatioFacts(m, d);
    ValueError(r);
    ScaledError(m, d, r, c);
  }

  lemma ScaledError(m: real, d: real, r: real, c: real)
    requires d > 0.0 && r == m / d && 0.0 <= r <= 9.0
    requires (Abs(c - r) <= 1.0 <==> r <= 7.0) && (r >= 6.0 ==> Abs(c - r) == r - 6.0)
    requires (r <= 7.0 <==> m <= 7.0 * d) && (r <= 7.5 <==> m <= 7.5 * d)
    ensures var err := Abs(c * d - m);
      && (err <= d <==> m <= 7.0 * d) && err <= 3.0 * d && (m <= 7.5 * d ==> err <= 1.5 * d)
  {
    hide Abs;
    ErrorScales(m, d, c);
    CombinedError(Abs(c * d - m), Abs(c - r), r, m, d);
  }

  lemma RatioFacts(m: real, d: real)
    requires d > 0.0 && 0.0 <= m <= 9.0 * d
    ensures 0.0 <= m / d <= 9.0
    ensures (m / d <= 7.0 <==> m <= 7.0 * d) && (m / d <= 7.5 <==> m <= 7.5 * d)
  {
    RatioCompare(m, d, 7.0);
    RatioCompare(m, d, 7.5);
    RatioCompare(m, d, 9.0);
  }

  lemma CombinedError(err: real, x: real, r: real, m: real, d: real)
    requires d > 0.0 && err == x * d && 0.0 <= r <= 9.0
    requires (x <= 1.0 <==> r <= 7.0) && (r >= 6.0 ==> x == r - 6.0)
    requires (r <= 7.0 <==> m <= 7.0 * d) && (r <= 7.5 <==> m <= 7.5 * d)
    ensures (err <= d <==> m <= 7.0 * d) && err <= 3.0 * d && (m <= 7.5 * d ==> err <= 1.5 * d)
  {
    InDivisors(err, x, d, 1.0);
    InDivisors(err, x, d, 1.5);
    InDivisors(err, x, d, 3.0);
  }

  lemma InDivisors(err: real, x: real, d: real, k: real)
    requires d > 0.0 && err == x * d
    ensures err <= k * d <==> x <= k
  {
    Product(x, k, d);
  }

  /** The error bound. A decoded weight is off by at most one divisor exactly when its magnitude is at
      most seven divisors, which can fail only for the two smallest scales; it is never off by more
      than three, and by more than one and a half only for the smallest scale. */
  lemma ErrorBound(global: real, a: real, e: nat, v: nat)
    requires global > 0.0 && Magnitude(e, v) <= a <= 2688.0 * global
    ensures var sc := BlockScale(global, a);
      var d := Divisor(global, sc); var err := Abs(Decode(global, sc, Code(global, sc, e, v)) - Source(e, v));
      && (err <= d <==> Magnitude(e, v) <= 7.0 * d)
      && err <= 3.0 * d && (sc >= 2 ==> err <= 1.5 * d) && (sc >= 3 ==> err <= d)
  {
    var sc := BlockScale(global, a);
    RatioIsBounded(global, a, e, v);
    MagnitudeErrorBound(global, sc, e, v);
    SignedError(global, sc, e, v);
  }

  /** Which ideal scales round to the two smallest codes. */
  lemma SmallScaleCodes(ideal: real)
    requires 0.0 < ideal <= 448.0
    ensures ScaleCode(ideal) == 1 <==> ideal < 1.5 / 512.0
    ensures ScaleCode(ideal) == 2 <==> 1.5 / 512.0 <= ideal <= 2.5 / 512.0
  {
    var x, sc := Clamp(ideal), ScaleCode(ideal);
    Landmarks();
    hide Value8, ScaleCode, Nearest8;
    if x <= 3.0 / 512.0 {
      var lo := if x <= 1.0 / 512.0 then 1 else if x <= 2.0 / 512.0 then 2 else 3;
      Choose8IsNearest(x, lo);
      Nearest8IsUnique(x, Choose8(x, lo), sc);
    } else {
      BeyondSmall(x, sc);
    }
  }

  lemma BeyondSmall(x: real, sc: nat)
    requires x > 3.0 / 512.0 && Nearest8(x, sc)
    ensures sc != 1 && sc != 2
  {
    ThreeIsNearer(x);
  }

  lemma ThreeIsNearer(x: real)
    requires x > 3.0 / 512.0
    ensures Abs(Value8(3) - x) < Abs(Value8(2) - x) && Abs(Value8(3) - x) < Abs(Value8(1) - x)
  {
    Landmarks();
    hide Value8;
  }

  lemma RatioBelow(m: real, d: real, k: real)
    requires d > 0.0
    ensures m / d < k <==> m < k * d
  {
    var r := m / d;
    assert r * d == m;
    assert (k - r) * d == k * d - m;
    if r < k {
      assert (k - r) * d > 0.0;
    } else {
      assert (r - k) * d >= 0.0;
    }
  }

  /** The same in terms of the block's largest magnitude: below nine units, and from nine to fifteen. */
  lemma SmallBlocks(global: real, a: real)
    requires global > 0.0 && 0.0 < a <= 2688.0 * global
    ensures BlockScale(global, a) == 1 <==> a < 9.0 * (global / 512.0)
    ensures BlockScale(global, a) == 2 <==> 9.0 * (global / 512.0) <= a <= 15.0 * (global / 512.0)
  {
    hide ScaleCode;
    var ideal := Ideal(global, a);
    IdealIsBounded(global, a);
    RatioCompare(a, 6.0 * global, 2.5 / 512.0);
    RatioBelow(a, 6.0 * global, 1.5 / 512.0);
    assert (1.5 / 512.0) * (6.0 * global) == 9.0 * (global / 512.0);
    assert (2.5 / 512.0) * (6.0 * global) == 15.0 * (global / 512.0);
    SmallScaleCodes(ideal);
  }

  /** The exact condition in terms of the input: with `u` the smallest divisor that the global scale allows, a
      weight is off by at most one divisor if and only if it is at most `7u`, or at most `14u` in a block that
      reaches `9u`, or in a block that exceeds `15u`. */
  lemma OneDivisorCondition(global: real, a: real, e: nat, v: nat)
    requires global > 0.0 && Magnitude(e, v) <= a <= 2688.0 * global
    ensures var u, m := global / 512.0, Magnitude(e, v);
      var sc := BlockScale(global, a);
      var err := Abs(Decode(global, sc, Code(global, sc, e, v)) - Source(e, v));
      err <= Divisor(global, sc) <==> m <= 7.0 * u || (9.0 * u <= a && m <= 14.0 * u) || 15.0 * u < a
  {
    hide Magnitude, BlockScale, Decode, Code, Source;
    ErrorBound(global, a, e, v);
    if a > 0.0 {
      SmallBlocks(global, a);
    }
    SmallDivisors(global);
  }

  lemma SmallDivisors(global: real)
    requires global > 0.0
    ensures Divisor(global, 1) == global / 512.0 && Divisor(global, 2) == 2.0 * (global / 512.0)
  {
    Landmarks();
    hide Value8;
  }

  /** Signs cancel: the code carries the weight's sign, or the weight is zero. */
  lemma SignedError(global: real, sc: nat, e: nat, v: nat)
    requires global > 0.0 && 1 <= sc
    ensures Abs(Decode(global, sc, Code(global, sc, e, v)) - Source(e, v)) == MagnitudeError(global, sc, e, v)
  {
    hide ValueCode, Value4, Exp2, Value8;
    var d := Divisor(global, sc);
    var c := ValueCode(Magnitude(e, v) / d);
    assert Value4(c) * Value8(sc) * global == Value4(c) * d;
    assert (c + 8) % 8 == c && c % 8 == c;
    if v % 128 == 0 {
      ZeroIsZero(global, sc, e, v);
    }
  }

  lemma ZeroIsZero(global: real, sc: nat, e: nat, v: nat)
    requires global > 0.0 && 1 <= sc && v % 128 == 0
    ensures Magnitude(e, v) == 0.0 && ValueCode(Magnitude(e, v) / Divisor(global, sc)) == 0 && Value4(0) == 0.0
  {
    hide Exp2, Value8;
    Landmarks();
    assert Value8(0) * Exp2(e - 127) == 0.0;
    Bounds();
    CountIsNearest(0.0, 0);
    Nearest4IsUnique(0.0, 0, ValueCode(0.0));
    hide *;
    assert 0.0 / Divisor(global, sc) == 0.0;
  }

  /** The bound of one divisor does fail: a table whose largest magnitude is 448, and a block whose
      largest is 160 / 65536 and falls to the smallest scale. */
  lemma SmallBlockExceeds()
    ensures Magnitude(127, 126) == 448.0 == 2688.0 * (1.0 / 6.0) && BlockScale(1.0 / 6.0, Magnitude(111, 114)) == 1
    ensures Abs(Decode(1.0 / 6.0, 1, Code(1.0 / 6.0, 1, 111, 114)) - Source(111, 114)) > Divisor(1.0 / 6.0, 1)
  {
    SmallMagnitude();
    SmallScale();
    Landmarks();
    assert Divisor(1.0 / 6.0, 1) == 1.0 / 3072.0;
    hide Magnitude, Value8, Decode, Code, Source, ScaleCode, Divisor;
    ErrorBound(1.0 / 6.0, 160.0 / 65536.0, 111, 114);
  }

  lemma SmallMagnitude()
    ensures Magnitude(111, 114) == 160.0 / 65536.0 && Magnitude(127, 126) == 448.0
  {
    Landmarks();
    SmallExponent();
    assert Units(114) == 81920 by {
      assert Pow2(3) == 8 && Pow2(6) == 64 && Pow2(10) == 1024 && Pow2(13) == 8192;
    }
    hide Units, Pow2;
    assert Value8(114) == 160.0;
    hide Value8, Exp2;
    assert Exp2(0) == 1.0 by {
      SmallExponent();
    }
  }

  lemma SmallExponent()
    ensures Exp2(-16) == 1.0 / 65536.0 && Exp2(0) == 1.0
  {
    assert Exp2(-4) == 1.0 / 16.0;
    assert Exp2(-8) == 1.0 / 256.0;
    assert Exp2(-12) == 1.0 / 4096.0;
  }

  lemma SmallScale()
    ensures ScaleCode(160.0 / 65536.0) == 1
  {
    Landmarks();
    Choose8IsNearest(160.0 / 65536.0, 2);
    Nearest8IsUnique(160.0 / 65536.0, 1, ScaleCode(160.0 / 65536.0));
  }
}
