/** The finished files of a conversion: as one direct pass over the table (`WeightsDone`, `ScalesDone`), and what
    that means in the magnitudes of the table itself (`FilesMean`). */
module ConvertMeaning {
  import opened Bytes
  import opened Nvfp4
  import opened PleBlock
  import opened PleHistogram
  import opened PleTable

  // ---------- one direct pass ----------

  /** Packed byte `i` of a direct conversion of the whole table. */
  ghost function DirectByte(w: seq<Byte>, s: seq<Byte>, rows: nat, global: real, i: nat): Byte
    requires global > 0.0 && Shaped(w, s, rows) && i < rows * 128
  {
    DirectCode(w, s, rows, global, 2 * i) + 16 * DirectCode(w, s, rows, global, 2 * i + 1)
  }

  /** The weight file: the header, and the first `n` rows converted. */
  ghost predicate WeightsDone(w: seq<Byte>, s: seq<Byte>, rows: nat, global: real, header: seq<Byte>, file: seq<Byte>, n: nat)
    requires global > 0.0 && Shaped(w, s, rows)
  {
    && HeaderOk(header, file, rows * 128)
    && forall i: nat :: i < n * 128 && i < rows * 128 ==> file[|header| + i] == DirectByte(w, s, rows, global, i)
  }

  ghost predicate ScalesDone(w: seq<Byte>, s: seq<Byte>, rows: nat, global: real, header: seq<Byte>, file: seq<Byte>, n: nat)
    requires global > 0.0 && Shaped(w, s, rows)
  {
    && HeaderOk(header, file, rows * 16 + 4)
    && forall b: nat :: b < n * 16 && b < rows * 16 ==> file[|header| + b] == DirectScale(w, s, rows, global, b)
  }

  predicate HeaderOk(header: seq<Byte>, file: seq<Byte>, payload: nat) {
    |file| == |header| + payload && file[..|header|] == header
  }

  // ---------- what it means ----------

  /** The magnitude of a weight byte under a group exponent. */
  function Size(e: nat, v: nat): real {
    Value8(v % 128) * Exp2(e - 127)
  }

  lemma SizeIsMagnitude()
    ensures forall e: nat, v: nat :: Size(e, v) == Magnitude(e, v)
  {
  }

  /** `a` is the largest magnitude among the weights from `from` on, below `to`. */
  ghost predicate IsLargestOf(w: seq<Byte>, s: seq<Byte>, from: nat, to: nat, a: real)
    requires to <= |w| && (to + 31) / 32 <= |s|
  {
    && (forall i: nat :: from <= i < to ==> Size(s[i / 32], w[i]) <= a)
    && (exists i: nat :: from <= i < to && Size(s[i / 32], w[i]) == a)
  }

  ghost predicate IsBlockMax(w: seq<Byte>, s: seq<Byte>, rows: nat, b: nat, a: real)
    requires |w| == rows * 256 && |s| == rows * 8 && b < rows * 16
  {
    IsLargestOf(w, s, b * 16, b * 16 + 16, a)
  }

  /** In a table with largest magnitude `top`, a block with largest magnitude `a` has the E4M3 scale nearest to
      `448 a / top`, the even code in a tie; the smallest scale at least, and one if the block is zero. */
  ghost predicate ScaleIsNearest(sc: nat, a: real, top: real)
    requires 0.0 <= a <= top
  {
    && 1 <= sc <= 126 && (a == 0.0 ==> Value8(sc) == 1.0) && (a == top > 0.0 ==> sc == 126)
    && (a > 0.0 ==>
        var x := if 448.0 * a / top < 1.0 / 512.0 then 1.0 / 512.0 else 448.0 * a / top;
        forall y: nat :: y <= 126 && y != sc ==>
          Abs(Value8(sc) - x) < Abs(Value8(y) - x) || (Abs(Value8(sc) - x) == Abs(Value8(y) - x) && sc % 2 == 0))
  }

  /** The E2M1 magnitudes. */
  function Fourth(c: nat): real
    requires c < 8
  {
    [0.0, 0.5, 1.0, 1.5, 2.0, 3.0, 4.0, 6.0][c]
  }

  /** Of two E2M1 magnitudes, the first is nearer to `m` under this scale, or as near and the even one. */
  ghost predicate CloserOrEven(code: nat, c: nat, d: real, m: real)
    requires c < 8
  {
    var x, y := Abs(Fourth(code % 8) * d - m), Abs(Fourth(c) * d - m);
    x < y || (x == y && code % 2 == 0)
  }

  ghost predicate NearestValue(code: nat, d: real, m: real) {
    forall c: nat :: c < 8 && c != code % 8 ==> CloserOrEven(code, c, d, m)
  }

  /** The code is the E2M1 value nearest to the weight under this scale, the even one in a tie, with the
      weight's sign unless it is zero. */
  ghost predicate CodeIsNearest(code: nat, d: real, e: nat, v: nat) {
    code < 16 && (code >= 8 <==> v >= 128 && v % 128 != 0) && NearestValue(code, d, Size(e, v))
  }

  /** The decoded weight is within a fifth of its block's largest magnitude, or within that part of the table's
      largest which the smallest scale can resolve. */
  ghost predicate IsClose(code: nat, d: real, e: nat, v: nat, a: real, top: real)
    requires code < 16
  {
    var err := Abs(Signed(Fourth(code % 8) * d, code >= 8) - Signed(Size(e, v), v >= 128));
    err <= a / 5.0 || err <= 3.0 * top / 1376256.0
  }

  function Signed(x: real, negative: bool): real {
    if negative then -x else x
  }

  /** Block `b`'s scale and its sixteen codes; even weights are in the low halves of the bytes, odd ones in the
      high halves. */
  ghost predicate BlockMeans(w: seq<Byte>, s: seq<Byte>, rows: nat, weightHeader: seq<Byte>, weights: seq<Byte>, scaleHeader: seq<Byte>,
      scales: seq<Byte>, b: nat, a: real, top: real, global: real)
    requires |w| == rows * 256 && |s| == rows * 8 && b < rows * 16
    requires |weights| == |weightHeader| + rows * 128 && |scales| >= |scaleHeader| + rows * 16
  {
    && 0.0 <= a <= top && ScaleIsNearest(scales[|scaleHeader| + b], a, top)
    && WeightsMean(weights[|weightHeader| + b * 8..|weightHeader| + b * 8 + 8], w[b * 16..b * 16 + 16], s[b / 2],
        Value8(scales[|scaleHeader| + b]) * global, a, top)
  }

  ghost predicate WeightsMean(packed: seq<Byte>, block: seq<Byte>, e: nat, d: real, a: real, top: real)
    requires |packed| == 8 && |block| == 16
  {
    forall j: nat :: j < 16 ==> WeightMeans(packed, block, e, d, j, a, top)
  }

  ghost predicate WeightMeans(packed: seq<Byte>, block: seq<Byte>, e: nat, d: real, j: nat, a: real, top: real)
    requires |packed| == 8 && |block| == 16 && j < 16
  {
    var code := if j % 2 == 0 then packed[j / 2] % 16 else packed[j / 2] / 16;
    CodeIsNearest(code, d, e, block[j]) && IsClose(code, d, e, block[j], a, top)
  }

  /** The two finished files of a table. */
  ghost predicate FilesMean(w: seq<Byte>, s: seq<Byte>, rows: nat, weightHeader: seq<Byte>, weights: seq<Byte>, scaleHeader: seq<Byte>,
      scales: seq<Byte>, encode: real -> seq<Byte>)
    requires |w| == rows * 256 && |s| == rows * 8
  {
    && weightHeader <= weights && |weights| == |weightHeader| + rows * 128
    && scaleHeader <= scales && |scales| == |scaleHeader| + rows * 16 + 4
    && exists top, global ::
      && IsLargestOf(w, s, 0, rows * 256, top) && global == (if top > 0.0 then top / 2688.0 else 1.0)
      && scales[|scaleHeader| + rows * 16..] == encode(global)
      && (forall b: nat, a :: b < rows * 16 && IsBlockMax(w, s, rows, b, a) ==>
            BlockMeans(w, s, rows, weightHeader, weights, scaleHeader, scales, b, a, top, global))
  }

  // ---------- the largest magnitudes ----------

  lemma TopIsLargest(w: seq<Byte>, s: seq<Byte>, rows: nat, maxima: seq<Byte>)
    requires Shaped(w, s, rows) && Finite(w, s, rows) && |maxima| == 256 && rows > 0
    requires forall e :: 0 <= e < 256 ==> maxima[e] == TableMax(w, s, rows * 8, e)
    ensures IsLargestOf(w, s, 0, rows * 256, Largest(maxima, 255))
  {
    hide Largest, TableMax, Finite, Value8, Exp2;
    AmaxIsLargest(w, s, rows, maxima);
    if Largest(maxima, 255) == 0.0 {
      assert TableMagnitude(w, s, 0) <= 0.0;
      assert Size(s[0 / 32], w[0]) == 0.0;
    } else {
      var i :| 0 <= i < |w| && TableMagnitude(w, s, i) == Largest(maxima, 255);
      assert Size(s[i / 32], w[i]) == Largest(maxima, 255);
    }
    forall i: nat | i < |w| ensures Size(s[i / 32], w[i]) <= Largest(maxima, 255) {
      assert TableMagnitude(w, s, i) <= Largest(maxima, 255);
    }
  }

  lemma BlockMaxIs(w: seq<Byte>, s: seq<Byte>, rows: nat, b: nat, a: real)
    requires Shaped(w, s, rows) && b < rows * 16 && IsBlockMax(w, s, rows, b, a)
    ensures IsLargest(s[b / 2], Block(w, b), a) && a == Magnitude(s[b / 2], MaxCode(Block(w, b))) && a >= 0.0
  {
    BlockLargest(w, s, rows, b, a);
    LargestByCode(s[b / 2], Block(w, b));
    hide Magnitude, MaxCode, IsBlockMax;
  }

  lemma BlockLargest(w: seq<Byte>, s: seq<Byte>, rows: nat, b: nat, a: real)
    requires Shaped(w, s, rows) && b < rows * 16 && IsBlockMax(w, s, rows, b, a)
    ensures IsLargest(s[b / 2], Block(w, b), a)
  {
    SizeIsMagnitude();
    hide Size, Magnitude;
    forall j: nat | j < 16 ensures Magnitude(s[b / 2], Block(w, b)[j]) <= a {
      assert Block(w, b)[j] == w[b * 16 + j] && (b * 16 + j) / 32 == b / 2;
      assert Size(s[(b * 16 + j) / 32], w[b * 16 + j]) <= a;
    }
    var i: nat :| b * 16 <= i < b * 16 + 16 && Size(s[i / 32], w[i]) == a;
    assert Block(w, b)[i - b * 16] == w[i] && i / 32 == b / 2;
  }

  // ---------- scales ----------

  lemma IdealIs(top: real, a: real)
    requires top > 0.0 && a > 0.0
    ensures Ideal(top / 2688.0, a) == 448.0 * a / top
  {
    assert 6.0 * (top / 2688.0) == top / 448.0;
  }

  lemma Cancels(a: real)
    requires a > 0.0
    ensures 448.0 * a / a == 448.0
  {
  }

  lemma OneIsOne(r: nat)
    requires Nearest8(Clamp(1.0), r)
    ensures r == 56 && Value8(r) == 1.0
  {
    Landmarks();
    hide Value8;
    assert Abs(Value8(56) - 1.0) == 0.0 && (r != 56 ==> Abs(Value8(r) - 1.0) <= 0.0);
    if r < 56 {
      Value8Increases(r, 56);
    } else if r > 56 {
      Value8Increases(56, r);
    }
  }

  lemma FullIsLargest(r: nat)
    requires Nearest8(Clamp(448.0), r)
    ensures r == 126
  {
    Landmarks();
    hide Value8;
    assert Abs(Value8(126) - 448.0) == 0.0 && (r != 126 ==> Abs(Value8(r) - 448.0) <= 0.0);
    if r < 126 {
      Value8Increases(r, 126);
    }
  }

  lemma ScaleMeans(top: real, a: real)
    requires 0.0 <= a <= top
    ensures ScaleIsNearest(BlockScale(GlobalScale(top), a), a, top)
  {
    hide Value8, ScaleCode;
    var global := GlobalScale(top);
    var ideal := Ideal(global, a);
    var sc := BlockScale(global, a);
    IdealIsBounded(global, a);
    assert Nearest8(Clamp(ideal), sc);
    if a == 0.0 {
      OneIsOne(sc);
    } else {
      IdealIs(top, a);
      if a == top {
        Cancels(a);
        FullIsLargest(sc);
      }
    }
  }

  // ---------- codes ----------

  lemma ValuesAre(c: nat)
    requires c < 8
    ensures Value4(c) == Fourth(c)
  {
  }

  lemma Scaled(x: real, y: real, m: real, d: real)
    requires d > 0.0
    ensures Abs(x * d - m) < Abs(y * d - m) <==> Abs(x - m / d) < Abs(y - m / d)
    ensures Abs(x * d - m) == Abs(y * d - m) <==> Abs(x - m / d) == Abs(y - m / d)
  {
    hide Abs;
    ErrorScales(m, d, x);
    ErrorScales(m, d, y);
    Product(Abs(x - m / d), Abs(y - m / d), d);
  }

  lemma ValueMeans(m: real, d: real, code: nat)
    requires d > 0.0 && m >= 0.0 && m / d >= 0.0 && code % 8 == ValueCode(m / d)
    ensures NearestValue(code, d, m)
  {
    hide Value4, Abs, ValueCode;
    var k := code % 8;
    ValuesAre(k);
    assert k % 2 == code % 2;
    forall c: nat | c < 8 && c != k ensures CloserOrEven(code, c, d, m) {
      ValuesAre(c);
      Scaled(Value4(k), Value4(c), m, d);
    }
  }

  lemma CodeMeans(global: real, sc: nat, e: nat, v: nat, d: real)
    requires global > 0.0 && 1 <= sc && d == Value8(sc) * global
    ensures CodeIsNearest(Code(global, sc, e, v), d, e, v)
  {
    hide Value8, NearestValue, ValueCode;
    var code := Code(global, sc, e, v);
    SignedRatio(Magnitude(e, v), Divisor(global, sc));
    ValueMeans(Magnitude(e, v), Divisor(global, sc), code);
  }

  // ---------- errors ----------

  /** From the third code on, a scale is at most six fifths of the ideal one. */
  lemma ScaleIsNotFar(ideal: real)
    requires 0.0 < ideal <= 448.0 && ScaleCode(ideal) >= 3
    ensures 5.0 * Value8(ScaleCode(ideal)) <= 6.0 * ideal
  {
    var sc, x := ScaleCode(ideal), Clamp(ideal);
    Landmarks();
    assert Abs(Value8(sc) - x) <= Abs(Value8(sc - 1) - x);
    Value8Increases(sc - 1, sc);
    Value8Increases(1, sc - 1);
    if sc > 3 {
      UnitsStep(sc - 1);
      assert 3.0 * Value8(sc) <= 4.0 * Value8(sc - 1);
    }
    hide Value8;
  }

  lemma FifthOf(global: real, a: real, sc: nat, ideal: real)
    requires global > 0.0 && ideal == a / (6.0 * global) && 5.0 * Value8(sc) <= 6.0 * ideal
    ensures Value8(sc) * global <= a / 5.0
  {
    hide Value8;
    assert ideal * (6.0 * global) == a;
    Product(5.0 * Value8(sc), 6.0 * ideal, global);
    assert 5.0 * (Value8(sc) * global) == 5.0 * Value8(sc) * global;
    assert 6.0 * ideal * global == a;
  }

  lemma ErrorIsClose(top: real, a: real, e: nat, v: nat)
    requires 0.0 <= a <= top && Magnitude(e, v) <= a
    ensures var global := GlobalScale(top); var sc := BlockScale(global, a);
      var err := Abs(Decode(global, sc, Code(global, sc, e, v)) - Source(e, v));
      err <= a / 5.0 || err <= 3.0 * top / 1376256.0
  {
    hide Magnitude, Decode, Code, Source, ScaleCode, Value8;
    var global := GlobalScale(top);
    var sc := BlockScale(global, a);
    if a == 0.0 {
      if v % 128 > 0 {
        MagnitudeIsPositive(e, v);
      }
      ZeroIsZero(global, sc, e, v);
      SignedError(global, sc, e, v);
    } else {
      ErrorBound(global, a, e, v);
      if sc >= 3 {
        IdealIsBounded(global, a);
        ScaleIsNotFar(Ideal(global, a));
        FifthOf(global, a, sc, Ideal(global, a));
      } else {
        Landmarks();
        assert global == top / 2688.0;
      }
    }
  }

  lemma MagnitudeIsPositive(e: nat, v: nat)
    requires v % 128 > 0
    ensures Magnitude(e, v) > 0.0
  {
    hide Value8;
    Landmarks();
    Value8Increases(0, v % 128);
    PositiveProduct(Value8(v % 128), Exp2(e - 127));
  }

  lemma PositiveProduct(x: real, y: real)
    requires x > 0.0 && y > 0.0
    ensures x * y > 0.0
  {
  }

  lemma DecodeIs(global: real, sc: nat, code: nat, d: real)
    requires global > 0.0 && code < 16 && d == Value8(sc) * global
    ensures Decode(global, sc, code) == Signed(Fourth(code % 8) * d, code >= 8)
  {
    hide Value8;
    ValuesAre(code % 8);
    assert Value4(code % 8) * Value8(sc) * global == Value4(code % 8) * d;
  }

  lemma SourceIs(e: nat, v: nat)
    ensures Source(e, v) == Signed(Magnitude(e, v), v >= 128)
  {
    hide Magnitude;
  }

  lemma CloseBy(code: nat, d: real, e: nat, v: nat, a: real, top: real, decoded: real, source: real)
    requires code < 16 && decoded == Signed(Fourth(code % 8) * d, code >= 8)
    requires source == Signed(Magnitude(e, v), v >= 128)
    requires Abs(decoded - source) <= a / 5.0 || Abs(decoded - source) <= 3.0 * top / 1376256.0
    ensures IsClose(code, d, e, v, a, top)
  {
    hide Fourth, Magnitude, Size;
    SizeIsMagnitude();
  }

  lemma CodeIsClose(top: real, a: real, e: nat, v: nat, d: real)
    requires 0.0 <= a <= top && Magnitude(e, v) <= a && d == Value8(BlockScale(GlobalScale(top), a)) * GlobalScale(top)
    ensures IsClose(Code(GlobalScale(top), BlockScale(GlobalScale(top), a), e, v), d, e, v, a, top)
  {
    hide Decode, Code, Value8, BlockScale, Magnitude, Source, Signed, Fourth, Abs, GlobalScale, IsClose;
    var global := GlobalScale(top);
    var sc := BlockScale(global, a);
    var code := Code(global, sc, e, v);
    ErrorIsClose(top, a, e, v);
    DecodeIs(global, sc, code, d);
    SourceIs(e, v);
    CloseBy(code, d, e, v, a, top, Decode(global, sc, code), Source(e, v));
  }

  // ---------- the files ----------

  /** Finished files mean what they must. */
  lemma FinishedFilesMean(w: seq<Byte>, s: seq<Byte>, rows: nat, maxima: seq<Byte>, weightHeader: seq<Byte>, weights: seq<Byte>,
      scaleHeader: seq<Byte>, scales: seq<Byte>, encode: real -> seq<Byte>)
    requires Shaped(w, s, rows) && Finite(w, s, rows) && |maxima| == 256 && rows > 0 && forall x :: |encode(x)| == 4
    requires forall e :: 0 <= e < 256 ==> maxima[e] == TableMax(w, s, rows * 8, e)
    requires WeightsDone(w, s, rows, GlobalScale(Largest(maxima, 255)), weightHeader, weights, rows)
    requires ScalesDone(w, s, rows, GlobalScale(Largest(maxima, 255)), scaleHeader, scales, rows)
    requires scales[|scaleHeader| + rows * 16..] == encode(GlobalScale(Largest(maxima, 255)))
    ensures FilesMean(w, s, rows, weightHeader, weights, scaleHeader, scales, encode)
  {
    hide Finite, TableMax, Largest, DirectScale, DirectCode, IsLargestOf, IsBlockMax, BlockMeans;
    var top := Largest(maxima, 255);
    TopIsLargest(w, s, rows, maxima);
    forall b: nat, a | b < rows * 16 && IsBlockMax(w, s, rows, b, a)
      ensures BlockMeans(w, s, rows, weightHeader, weights, scaleHeader, scales, b, a, top, GlobalScale(top))
    {
      BlockAt(w, s, rows, maxima, weightHeader, weights, scaleHeader, scales, b, a, top);
    }
  }

  lemma BlockAt(w: seq<Byte>, s: seq<Byte>, rows: nat, maxima: seq<Byte>, weightHeader: seq<Byte>, weights: seq<Byte>,
      scaleHeader: seq<Byte>, scales: seq<Byte>, b: nat, a: real, top: real)
    requires Shaped(w, s, rows) && Finite(w, s, rows) && |maxima| == 256 && b < rows * 16 && IsBlockMax(w, s, rows, b, a)
    requires top == Largest(maxima, 255) && forall e :: 0 <= e < 256 ==> maxima[e] == TableMax(w, s, rows * 8, e)
    requires WeightsDone(w, s, rows, GlobalScale(top), weightHeader, weights, rows)
    requires ScalesDone(w, s, rows, GlobalScale(top), scaleHeader, scales, rows)
    ensures BlockMeans(w, s, rows, weightHeader, weights, scaleHeader, scales, b, a, top, GlobalScale(top))
  {
    hide Finite, TableMax, Largest, DirectScale, DirectByte, IsBlockMax, ScaleIsNearest, WeightMeans, IsLargest, Value8, MaxCode, Magnitude;
    var global := GlobalScale(top);
    BlockMaxIs(w, s, rows, b, a);
    ScaleAt(w, s, rows, maxima, b, a, top);
    assert scales[|scaleHeader| + b] == DirectScale(w, s, rows, global, b);
    var packed := weights[|weightHeader| + b * 8..|weightHeader| + b * 8 + 8];
    var block, d := w[b * 16..b * 16 + 16], Value8(scales[|scaleHeader| + b]) * global;
    forall j: nat | j < 16 ensures WeightMeans(packed, block, s[b / 2], d, j, a, top) {
      PackedAt(w, s, rows, global, weightHeader, weights, b, j);
      WeightAt(w, s, rows, maxima, b, j, packed, a, d, top);
    }
    BlockBy(w, s, rows, weightHeader, weights, scaleHeader, scales, b, a, top, global, d);
  }

  lemma BlockBy(w: seq<Byte>, s: seq<Byte>, rows: nat, weightHeader: seq<Byte>, weights: seq<Byte>, scaleHeader: seq<Byte>, scales: seq<Byte>,
      b: nat, a: real, top: real, global: real, d: real)
    requires |w| == rows * 256 && |s| == rows * 8 && b < rows * 16
    requires |weights| == |weightHeader| + rows * 128 && |scales| >= |scaleHeader| + rows * 16
    requires 0.0 <= a <= top && ScaleIsNearest(scales[|scaleHeader| + b], a, top) && d == Value8(scales[|scaleHeader| + b]) * global
    requires WeightsMean(weights[|weightHeader| + b * 8..|weightHeader| + b * 8 + 8], w[b * 16..b * 16 + 16], s[b / 2], d, a, top)
    ensures BlockMeans(w, s, rows, weightHeader, weights, scaleHeader, scales, b, a, top, global)
  {
    hide Value8, ScaleIsNearest, WeightsMean;
  }

  lemma PackedAt(w: seq<Byte>, s: seq<Byte>, rows: nat, global: real, header: seq<Byte>, weights: seq<Byte>, b: nat, j: nat)
    requires Shaped(w, s, rows) && global > 0.0 && b < rows * 16 && j < 16 && WeightsDone(w, s, rows, global, header, weights, rows)
    ensures |weights| == |header| + rows * 128
    ensures weights[|header| + b * 8..|header| + b * 8 + 8][j / 2] == DirectByte(w, s, rows, global, b * 8 + j / 2)
  {
    hide DirectByte;
    assert b * 8 + j / 2 < rows * 128;
  }

  lemma ScaleAt(w: seq<Byte>, s: seq<Byte>, rows: nat, maxima: seq<Byte>, b: nat, a: real, top: real)
    requires Shaped(w, s, rows) && Finite(w, s, rows) && |maxima| == 256 && b < rows * 16 && a == Magnitude(s[b / 2], MaxCode(Block(w, b)))
    requires top == Largest(maxima, 255) && forall e :: 0 <= e < 256 ==> maxima[e] == TableMax(w, s, rows * 8, e)
    ensures 0.0 <= a <= top
    ensures ScaleIsNearest(DirectScale(w, s, rows, GlobalScale(top), b), a, top)
  {
    hide Finite, TableMax, Largest, ScaleIsNearest, Magnitude, MaxCode, BlockScale;
    BlockIsBounded(w, s, rows, maxima, b);
    ScaleMeans(top, a);
  }

  lemma WeightAt(w: seq<Byte>, s: seq<Byte>, rows: nat, maxima: seq<Byte>, b: nat, j: nat, packed: seq<Byte>, a: real, d: real, top: real)
    requires Shaped(w, s, rows) && Finite(w, s, rows) && |maxima| == 256 && b < rows * 16 && j < 16 && |packed| == 8
    requires IsLargest(s[b / 2], Block(w, b), a) && a == Magnitude(s[b / 2], MaxCode(Block(w, b))) && 0.0 <= a <= top
    requires packed[j / 2] == DirectByte(w, s, rows, GlobalScale(top), b * 8 + j / 2)
    requires d == Value8(DirectScale(w, s, rows, GlobalScale(top), b)) * GlobalScale(top)
    ensures WeightMeans(packed, w[b * 16..b * 16 + 16], s[b / 2], d, j, a, top)
  {
    hide Finite, TableMax, Largest, MaxCode, BlockScale, Code, CodeIsNearest, IsClose, Value8, Magnitude, DirectByte, GlobalScale;
    var global := GlobalScale(top);
    assert Block(w, b)[j] == w[b * 16 + j] == w[b * 16..b * 16 + 16][j];
    CodeMeans(global, BlockScale(global, a), s[b / 2], w[b * 16 + j], d);
    CodeIsClose(top, a, s[b / 2], w[b * 16 + j], d);
    HalfIs(w, s, rows, global, b, j);
  }

  lemma HalfIs(w: seq<Byte>, s: seq<Byte>, rows: nat, global: real, b: nat, j: nat)
    requires Shaped(w, s, rows) && global > 0.0 && b < rows * 16 && j < 16
    ensures var byte, code := DirectByte(w, s, rows, global, b * 8 + j / 2), Code(global, DirectScale(w, s, rows, global, b), s[b / 2], w[b * 16 + j]);
      code == if j % 2 == 0 then byte % 16 else byte / 16
  {
    hide Code, DirectScale;
    var i := b * 16 + j;
    assert i / 16 == b && i / 32 == b / 2;
    assert DirectCode(w, s, rows, global, i) == Code(global, DirectScale(w, s, rows, global, b), s[b / 2], w[i]);
    if j % 2 == 0 {
      assert 2 * (b * 8 + j / 2) == i;
    } else {
      assert 2 * (b * 8 + j / 2) + 1 == i;
    }
  }
}
