/** The lookup tables, the conversion through them, and what the converted table means. */
module PleTable {
  import opened Bytes
  import opened Nvfp4
  import opened PleBlock
  import opened PleHistogram

  // ---------- the lookup tables ----------

  /** Row `k` of the tables stands for exponent `k / 128` and largest code `k % 128`. */
  ghost function RowScale(global: real, k: nat): (r: Byte)
    requires global > 0.0
    ensures 1 <= r <= 126
  {
    BlockScale(global, Magnitude(k / 128, k % 128))
  }

  ghost function RowCode(global: real, k: nat, v: nat): (r: Byte)
    requires global > 0.0
    ensures r < 16
  {
    Code(global, RowScale(global, k), k / 128, v)
  }

  predicate Used(k: nat) {
    k / 128 < 255 && k % 128 < 127
  }

  predicate Nibbles(codes: seq<Byte>) {
    forall i: nat :: i < |codes| ==> codes[i] < 16
  }

  /** The tables hold direct quantization at every row a finite table can look up. */
  ghost predicate IsLut(global: real, codes: seq<Byte>, scales: seq<Byte>)
    requires global > 0.0
  {
    && |codes| == 256 * 128 * 256 && |scales| == 256 * 128
    && (forall k: nat :: k < 256 * 128 && Used(k) ==> scales[k] == RowScale(global, k))
    && (forall i: nat :: i < 256 * 128 * 256 && Used(i / 256) ==> codes[i] == RowCode(global, i / 256, i % 256))
    && Nibbles(codes)
  }

  /** The scale of a table row. */
  method ScaleOfRow(global: real, k: nat) returns (sc: Byte)
    requires global > 0.0
    ensures sc == RowScale(global, k)
  {
    hide ScaleCode, Nearest8, Value8, Exp2, Ideal, Clamp;
    var e, m := k / 128, k % 128;
    var a := Value8(m) * Exp2(e - 127);
    MagnitudeSign(e, m);
    assert m % 128 == m && a == Magnitude(e, m);
    var scale := IdealOfCode(global, m, a);
    sc := Round8(scale);
    Nearest8IsUnique(Clamp(scale), sc, ScaleCode(scale));
  }

  /** The ideal scale, with the code standing in for the magnitude in the test for zero. */
  function IdealOfCode(global: real, m: nat, a: real): (scale: real)
    requires global > 0.0
    ensures (m > 0 <==> a > 0.0) ==> scale == Ideal(global, a)
  {
    if m > 0 then a / (6.0 * global) else 1.0
  }

  /** The code of one weight byte under a row. */
  method CodeOf(global: real, sc: Byte, e: nat, v: nat) returns (code: Byte)
    requires global > 0.0 && sc >= 1
    ensures code == Code(global, sc, e, v)
  {
    hide Value8, Exp2, ValueCode;
    var value := Value8(v % 128) * Exp2(e - 127);
    var divisor := Value8(sc) * global;
    assert value == Magnitude(e, v) && divisor == Divisor(global, sc);
    SignedRatio(value, divisor);
    code := Round4(value / divisor);
    if v >= 128 && v % 128 != 0 {
      code := code + 8;
    }
  }

  /** One row of `ple_lut`. */
  method LutRow(global: real, k: nat, codes: array<Byte>, scales: array<Byte>)
    requires global > 0.0 && Used(k) && codes != scales && codes.Length == 256 * 128 * 256 && scales.Length == 256 * 128
    modifies codes, scales
    ensures scales[..] == old(scales[..])[k := RowScale(global, k)]
    ensures forall i: nat :: i < 256 * 128 * 256 ==>
      codes[i] == if i / 256 == k then RowCode(global, k, i % 256) else old(codes[i])
  {
    hide Code, BlockScale;
    var sc := ScaleOfRow(global, k);
    scales[k] := sc;
    var v := 0;
    while v < 256
      invariant 0 <= v <= 256 && scales[..] == old(scales[..])[k := sc]
      invariant forall i: nat :: i < 256 * 128 * 256 ==>
        codes[i] == if i / 256 == k && i % 256 < v then RowCode(global, k, i % 256) else old(codes[i])
    {
      codes[k * 256 + v] := CodeOf(global, sc, k / 128, v);
      v := v + 1;
    }
  }

  /** `ple_lut` */
  method PleLut(global: real, codes: array<Byte>, scales: array<Byte>)
    requires global > 0.0 && codes != scales && codes.Length == 256 * 128 * 256 && scales.Length == 256 * 128
    requires forall i: nat :: i < 256 * 128 * 256 ==> codes[i] < 16
    modifies codes, scales
    ensures IsLut(global, codes[..], scales[..])
    ensures forall k: nat :: k < 256 * 128 && !Used(k) ==> scales[k] == old(scales[k])
    ensures forall i: nat :: i < 256 * 128 * 256 && !Used(i / 256) ==> codes[i] == old(codes[i])
  {
    hide RowScale, RowCode;
    var e := 0;
    while e < 255
      invariant 0 <= e <= 255 && Filled(global, e * 128, codes, scales)
      invariant forall k: nat :: k < 256 * 128 && !Used(k) ==> scales[k] == old(scales[k])
      invariant forall i: nat :: i < 256 * 128 * 256 && !Used(i / 256) ==> codes[i] == old(codes[i])
    {
      var m := 0;
      while m < 127
        invariant 0 <= m <= 127 && Filled(global, e * 128 + m, codes, scales)
        invariant forall k: nat :: k < 256 * 128 && !Used(k) ==> scales[k] == old(scales[k])
        invariant forall i: nat :: i < 256 * 128 * 256 && !Used(i / 256) ==> codes[i] == old(codes[i])
      {
        LutRow(global, e * 128 + m, codes, scales);
        m := m + 1;
      }
      e := e + 1;
    }
  }

  /** The used rows below `n` are filled in. */
  ghost predicate Filled(global: real, n: nat, codes: array<Byte>, scales: array<Byte>)
    requires global > 0.0 && codes.Length == 256 * 128 * 256 && scales.Length == 256 * 128
    reads codes, scales
  {
    && (forall k: nat :: k < n && k < 256 * 128 && Used(k) ==> scales[k] == RowScale(global, k))
    && (forall i: nat :: i < 256 * 128 * 256 && i / 256 < n && Used(i / 256) ==> codes[i] == RowCode(global, i / 256, i % 256))
    && (forall i: nat :: i < 256 * 128 * 256 ==> codes[i] < 16)
  }

  // ---------- conversion ----------

  /** The table row of sixteen-weight block `b`. */
  function BlockKey(w: seq<Byte>, s: seq<Byte>, rows: nat, b: nat): (k: nat)
    requires Shaped(w, s, rows) && b < rows * 16
    ensures k < 256 * 128
  {
    s[b / 2] * 128 + MaxCode(Block(w, b))
  }

  function Lookup(codes: seq<Byte>, k: nat, v: Byte): Byte
    requires |codes| == 256 * 128 * 256 && k < 256 * 128
  {
    codes[k * 256 + v]
  }

  function ScaleByte(w: seq<Byte>, s: seq<Byte>, rows: nat, scales: seq<Byte>, b: nat): Byte
    requires Shaped(w, s, rows) && b < rows * 16 && |scales| == 256 * 128
  {
    scales[BlockKey(w, s, rows, b)]
  }

  /** Byte `i` of the packed weights holds weights `2 i` (low nibble) and `2 i + 1`. */
  function PackedByte(w: seq<Byte>, s: seq<Byte>, rows: nat, codes: seq<Byte>, i: nat): Byte
    requires Shaped(w, s, rows) && i < rows * 128 && |codes| == 256 * 128 * 256 && Nibbles(codes)
  {
    Lookup(codes, BlockKey(w, s, rows, i / 8), w[2 * i]) + 16 * Lookup(codes, BlockKey(w, s, rows, i / 8), w[2 * i + 1])
  }

  /** One iteration of the parallel loop of `ple_convert`. */
  method ConvertBlock(w: seq<Byte>, s: seq<Byte>, rows: nat, b: nat, codes: seq<Byte>, scales: seq<Byte>, out: array<Byte>, os: array<Byte>)
    requires Shaped(w, s, rows) && b < rows * 16 && |codes| == 256 * 128 * 256 && |scales| == 256 * 128 && Nibbles(codes)
    requires out != os && out.Length == rows * 128 && os.Length == rows * 16
    modifies out, os
    ensures os[..] == old(os[..])[b := ScaleByte(w, s, rows, scales, b)]
    ensures forall i: nat :: i < rows * 128 ==> out[i] == if i / 8 == b then PackedByte(w, s, rows, codes, i) else old(out[i])
  {
    hide MaxCode;
    var m := GroupMax(w, b * 16, 16);
    var key := s[b / 2] as nat * 128 + m as nat;
    assert key == BlockKey(w, s, rows, b);
    os[b] := scales[key];
    var j := 0;
    while j < 8
      invariant 0 <= j <= 8 && os[..] == old(os[..])[b := ScaleByte(w, s, rows, scales, b)]
      invariant forall i: nat :: i < rows * 128 ==>
        out[i] == if i / 8 == b && i % 8 < j then PackedByte(w, s, rows, codes, i) else old(out[i])
    {
      out[b * 8 + j] := codes[key * 256 + w[b * 16 + 2 * j]] + 16 * codes[key * 256 + w[b * 16 + 2 * j + 1]];
      j := j + 1;
    }
  }

  /** `ple_convert`: blocks are independent, so any order that covers them all gives the same bytes. */
  method PleConvert(w: seq<Byte>, s: seq<Byte>, rows: nat, order: seq<nat>, codes: seq<Byte>, scales: seq<Byte>,
      out: array<Byte>, os: array<Byte>)
    requires Shaped(w, s, rows) && |codes| == 256 * 128 * 256 && |scales| == 256 * 128 && Nibbles(codes)
    requires out != os && out.Length == rows * 128 && os.Length == rows * 16
    requires (forall b :: b in order ==> b < rows * 16) && (forall b: nat :: b < rows * 16 ==> b in order)
    modifies out, os
    ensures forall b: nat :: b < rows * 16 ==> os[b] == ScaleByte(w, s, rows, scales, b)
    ensures forall i: nat :: i < rows * 128 ==> out[i] == PackedByte(w, s, rows, codes, i)
  {
    hide ScaleByte, PackedByte;
    var n := 0;
    while n < |order|
      invariant 0 <= n <= |order|
      invariant forall b: nat :: b < rows * 16 && b in order[..n] ==> os[b] == ScaleByte(w, s, rows, scales, b)
      invariant forall i: nat :: i < rows * 128 && i / 8 in order[..n] ==> out[i] == PackedByte(w, s, rows, codes, i)
    {
      assert order[n] in order;
      ConvertBlock(w, s, rows, order[n], codes, scales, out, os);
      assert order[..n + 1] == order[..n] + [order[n]];
      n := n + 1;
    }
    assert order[..n] == order;
  }

  /** The low or the high half of a packed byte. */
  function Nibble(packed: nat, odd: nat): nat {
    if odd == 0 then packed % 16 else packed / 16
  }

  lemma Unpacks(low: nat, high: nat)
    requires low < 16
    ensures Nibble(low + 16 * high, 0) == low && Nibble(low + 16 * high, 1) == high
  {
  }

  /** The direct scale of block `b`. */
  ghost function DirectScale(w: seq<Byte>, s: seq<Byte>, rows: nat, global: real, b: nat): (r: Byte)
    requires global > 0.0 && Shaped(w, s, rows) && b < rows * 16
    ensures 1 <= r
  {
    BlockScale(global, Magnitude(s[b / 2], MaxCode(Block(w, b))))
  }

  ghost function DirectCode(w: seq<Byte>, s: seq<Byte>, rows: nat, global: real, i: nat): (r: Byte)
    requires global > 0.0 && Shaped(w, s, rows) && i < rows * 256
    ensures r < 16
  {
    Code(global, DirectScale(w, s, rows, global, i / 16), s[i / 32], w[i])
  }

  lemma ScaleIsDirect(w: seq<Byte>, s: seq<Byte>, rows: nat, global: real, codes: seq<Byte>, scales: seq<Byte>, b: nat)
    requires Shaped(w, s, rows) && Finite(w, s, rows) && global > 0.0 && IsLut(global, codes, scales) && b < rows * 16
    ensures ScaleByte(w, s, rows, scales, b) == DirectScale(w, s, rows, global, b)
  {
    hide BlockScale, Magnitude, IsLut;
    BlockIsFinite(w, s, rows, b);
    hide MaxCode, Finite;
    LookupIsDirect(global, codes, scales, BlockKey(w, s, rows, b), 0);
  }

  /** Through the tables, weight `i` gets the code that quantizing its block directly gives it, found in
      its own nibble; and its block gets the direct scale. */
  lemma TablesAreDirect(w: seq<Byte>, s: seq<Byte>, rows: nat, global: real, codes: seq<Byte>, scales: seq<Byte>, i: nat)
    requires Shaped(w, s, rows) && Finite(w, s, rows) && global > 0.0 && IsLut(global, codes, scales) && i < rows * 256
    ensures ScaleByte(w, s, rows, scales, i / 16) == DirectScale(w, s, rows, global, i / 16)
    ensures Nibble(PackedByte(w, s, rows, codes, i / 2), i % 2) == DirectCode(w, s, rows, global, i)
  {
    hide BlockScale, Code, Magnitude, IsLut;
    var k := BlockKey(w, s, rows, i / 16);
    Places(i);
    BlockIsFinite(w, s, rows, i / 16);
    hide MaxCode, Finite, Lookup;
    LookupIsDirect(global, codes, scales, k, w[i]);
    if i % 2 == 0 {
      Unpacks(Lookup(codes, k, w[i]), Lookup(codes, k, w[i + 1]));
    } else {
      Unpacks(Lookup(codes, k, w[i - 1]), Lookup(codes, k, w[i]));
    }
  }

  lemma Places(i: nat)
    ensures i / 2 / 8 == i / 16 && i / 16 / 2 == i / 32 && i / 2 / 16 == i / 32
    ensures i % 2 == 0 ==> 2 * (i / 2) == i
    ensures i % 2 == 1 ==> 2 * (i / 2) + 1 == i
    ensures i < i / 16 * 16 + 16 && i / 16 * 16 + i % 16 == i
  {
  }

  lemma BlockIsFinite(w: seq<Byte>, s: seq<Byte>, rows: nat, b: nat)
    requires Shaped(w, s, rows) && Finite(w, s, rows) && b < rows * 16
    ensures s[b / 2] < 255 && MaxCode(Block(w, b)) < 127 && Used(BlockKey(w, s, rows, b))
    ensures BlockKey(w, s, rows, b) / 128 == s[b / 2] && BlockKey(w, s, rows, b) % 128 == MaxCode(Block(w, b))
  {
    MaxCodeAttained(Block(w, b));
    var j :| 0 <= j < 16 && Block(w, b)[j] % 128 == MaxCode(Block(w, b));
    assert w[b * 16 + j] % 128 == MaxCode(Block(w, b));
  }

  /** `check_row`: on any table, not only on the one row it samples, the packed result of weight `j` of
      block `b` is what the independent reference computes. */
  lemma CheckRowAgrees(w: seq<Byte>, s: seq<Byte>, rows: nat, global: real, codes: seq<Byte>, scales: seq<Byte>,
      b: nat, j: nat, x: real, r: nat)
    requires Shaped(w, s, rows) && Finite(w, s, rows) && global > 0.0 && IsLut(global, codes, scales) && b < rows * 16 && j < 16
    requires IsLargestAbsolute(s[b / 2], Block(w, b), x) && Nearest8(Clamp(ReferenceIdeal(global, x)), r)
    ensures r >= 1 && ScaleByte(w, s, rows, scales, b) == r
    ensures Nibble(PackedByte(w, s, rows, codes, b * 8 + j / 2), j % 2) == ReferenceCode(global, r, s[b / 2], w[b * 16 + j])
  {
    hide BlockScale, Code, ReferenceCode, ReferenceIdeal, Magnitude, MaxCode, IsLut, IsLargestAbsolute, Nearest8, Finite,
      ScaleByte, PackedByte;
    NearestIsPositive(Clamp(ReferenceIdeal(global, x)), r);
    TablesAreDirect(w, s, rows, global, codes, scales, b * 16 + j);
    ReferenceScaleAgrees(global, s[b / 2], Block(w, b), x, r);
    ReferenceCodeAgrees(global, r, s[b / 2], w[b * 16 + j]);
  }

  lemma LookupIsDirect(global: real, codes: seq<Byte>, scales: seq<Byte>, k: nat, v: Byte)
    requires global > 0.0 && IsLut(global, codes, scales) && k < 256 * 128 && Used(k)
    ensures |codes| == 256 * 128 * 256 && |scales| == 256 * 128 && Nibbles(codes) && forall u: Byte :: Lookup(codes, k, u) < 16
    ensures scales[k] == RowScale(global, k) && Lookup(codes, k, v) == RowCode(global, k, v)
  {
    hide RowCode, RowScale;
    assert (k * 256 + v) / 256 == k && (k * 256 + v) % 256 == v;
  }

  // ---------- the whole conversion ----------

  /** The global scale of a table with the given largest magnitude (fp4ple.py). */
  function GlobalScale(amax: real): (g: real)
    requires amax >= 0.0
    ensures g > 0.0 && amax <= 2688.0 * g
  {
    if amax > 0.0 then amax / 2688.0 else 1.0
  }

  /** A decoded value is within three divisors of its source, one and a half if its block's scale code
      is at least two, and one if at least three. */
  predicate WithinBound(global: real, scale: nat, decoded: real, source: real)
    requires global > 0.0
  {
    var d, err := Value8(scale) * global, Abs(decoded - source);
    err <= 3.0 * d && (scale >= 2 ==> err <= 1.5 * d) && (scale >= 3 ==> err <= d)
  }

  lemma DirectError(w: seq<Byte>, s: seq<Byte>, rows: nat, maxima: seq<Byte>, i: nat)
    requires Shaped(w, s, rows) && Finite(w, s, rows) && |maxima| == 256 && i < rows * 256
    requires forall e :: 0 <= e < 256 ==> maxima[e] == TableMax(w, s, rows * 8, e)
    ensures var global := GlobalScale(Largest(maxima, 255)); var scale := DirectScale(w, s, rows, global, i / 16);
      WithinBound(global, scale, Decode(global, scale, DirectCode(w, s, rows, global, i)), Source(s[i / 32], w[i]))
  {
    hide Magnitude, MaxCode, BlockScale, Value8, Code, Decode, Source, Largest, TableMax, Finite, Abs;
    var global := GlobalScale(Largest(maxima, 255));
    var block, e := Block(w, i / 16), s[i / 32];
    LargestByCode(e, block);
    Places(i);
    assert block[i % 16] == w[i];
    BlockIsBounded(w, s, rows, maxima, i / 16);
    ErrorBound(global, Magnitude(e, MaxCode(block)), e, w[i]);
  }

  lemma BlockIsBounded(w: seq<Byte>, s: seq<Byte>, rows: nat, maxima: seq<Byte>, b: nat)
    requires Shaped(w, s, rows) && Finite(w, s, rows) && |maxima| == 256 && b < rows * 16
    requires forall e :: 0 <= e < 256 ==> maxima[e] == TableMax(w, s, rows * 8, e)
    ensures Magnitude(s[b / 2], MaxCode(Block(w, b))) <= Largest(maxima, 255)
  {
    hide Magnitude, MaxCode, Largest, TableMax, Finite;
    LargestByCode(s[b / 2], Block(w, b));
    var j :| 0 <= j < 16 && Magnitude(s[b / 2], Block(w, b)[j]) == Magnitude(s[b / 2], MaxCode(Block(w, b)));
    WeightIsBounded(w, s, rows, maxima, b * 16 + j);
    assert (b * 16 + j) / 32 == b / 2;
  }

  /** With the global scale from the histogram, no block of a finite table asks for a scale beyond the largest
      code. */
  lemma IdealIsInRange(w: seq<Byte>, s: seq<Byte>, rows: nat, maxima: seq<Byte>, b: nat)
    requires Shaped(w, s, rows) && Finite(w, s, rows) && |maxima| == 256 && b < rows * 16
    requires forall e :: 0 <= e < 256 ==> maxima[e] == TableMax(w, s, rows * 8, e)
    ensures 0.0 < Ideal(GlobalScale(Largest(maxima, 255)), Magnitude(s[b / 2], MaxCode(Block(w, b)))) <= 448.0
  {
    hide Magnitude, MaxCode, Largest, TableMax, Finite;
    BlockIsBounded(w, s, rows, maxima, b);
    IdealIsBounded(GlobalScale(Largest(maxima, 255)), Magnitude(s[b / 2], MaxCode(Block(w, b))));
  }
}
