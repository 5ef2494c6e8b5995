/** Stratified anchor selection: one pseudo-random ordinal per stratum, placed by a single forward cursor. */
module DraftAnchors {
  import opened Options

  datatype Anchor = Anchor(record: nat, position: nat)

  /** The positions of each record, and all anchors in the order they are digested. */
  datatype Selection = Selection(eligible: nat, positions: seq<seq<nat>>, anchors: seq<Anchor>)

  const WORD: nat := 0x1_0000_0000_0000_0000

  function SplitMix64(seed: bv64): bv64 {
    var a := seed + 0x9E3779B97F4A7C15;
    var b := (a ^ (a >> 30)) * 0xBF58476D1CE4E5B9;
    var c := (b ^ (b >> 27)) * 0x94D049BB133111EB;
    c ^ (c >> 31)
  }

  /** Known outputs of the generator. */
  lemma KnownWords()
    ensures SplitMix64(0) == 0xE220A8397B1DCDAF && SplitMix64(1) == 0x910A2DEC89025CC1
  {
  }

  /** The word of a stratum; both operands are taken modulo two to the 64. */
  function Word(seed: int, stratum: nat): nat {
    SplitMix64(((seed % WORD) as bv64) ^ ((stratum % WORD) as bv64)) as nat
  }

  // ---------- strata ----------

  function Lower(stratum: nat, count: nat, total: nat): nat
    requires count > 0
  {
    Quotient(stratum * total, count)
  }

  /** Floor division, by what determines it. */
  function Quotient(x: nat, c: nat): (q: nat)
    requires c > 0
    ensures c * q <= x < c * q + c
  {
    x / c
  }

  lemma LessByFactor(c: nat, u: int, v: int)
    requires c > 0 && c * u < c * v
    ensures u < v
  {
    assert c * v - c * u == c * (v - u);
  }

  function Ceiling(total: nat, count: nat): nat
    requires count > 0
  {
    Quotient(total + count - 1, count)
  }

  /** Adding `t` to a numerator moves the quotient by `t / c`, rounded down or up. */
  lemma QuotientStep(x: nat, t: nat, c: nat)
    requires c > 0
    ensures Quotient(x, c) + Quotient(t, c) <= Quotient(x + t, c) <= Quotient(x, c) + Ceiling(t, c)
  {
    hide Quotient;
    StepBounds(x, t, c, Quotient(x, c), Quotient(x + t, c), Quotient(t, c), Ceiling(t, c));
  }

  lemma StepBounds(x: nat, t: nat, c: nat, p: nat, q: nat, a: nat, up: nat)
    requires c > 0 && c * p <= x < c * p + c && c * q <= x + t < c * q + c && c * a <= t <= c * up
    ensures p + a <= q <= p + up
  {
    assert c * (p + a) == c * p + c * a && c * (q + 1) == c * q + c;
    LessByFactor(c, p + a, q + 1);
    assert c * (p + up + 1) == c * p + c * up + c;
    LessByFactor(c, q, p + up + 1);
  }

  /** A stratum is never empty and never larger than the rounded-up mean. */
  lemma StratumSize(stratum: nat, count: nat, total: nat)
    requires 0 < count <= total
    ensures 1 <= Lower(stratum + 1, count, total) - Lower(stratum, count, total) <= Ceiling(total, count)
  {
    hide Quotient, Ceiling;
    assert (stratum + 1) * total == stratum * total + total;
    QuotientStep(stratum * total, total, count);
    LessByFactor(count, 1, Quotient(total, count) + 1);
  }

  lemma LastStratum(count: nat, total: nat)
    requires count > 0
    ensures Lower(count, count, total) == total
  {
    hide Quotient;
    var q := Quotient(count * total, count);
    assert count * (q + 1) == count * q + count && count * (total + 1) == count * total + count;
    LessByFactor(count, total, q + 1);
    LessByFactor(count, q, total + 1);
  }

  lemma {:induction false} StrataAscend(s: nat, t: nat, count: nat, total: nat)
    requires 0 < count <= total && s <= t
    ensures Lower(s, count, total) <= Lower(t, count, total)
    decreases t
  {
    hide Lower, Ceiling;
    if s < t {
      StrataAscend(s, t - 1, count, total);
      StratumSize(t - 1, count, total);
    }
  }

  /** The ordinal chosen in a stratum. */
  function Ordinal(seed: int, stratum: nat, count: nat, total: nat): (r: nat)
    requires 0 < count <= total
    ensures Lower(stratum, count, total) <= r < Lower(stratum + 1, count, total)
  {
    StratumSize(stratum, count, total);
    Lower(stratum, count, total) + Word(seed, stratum) % (Lower(stratum + 1, count, total) - Lower(stratum, count, total))
  }

  /** The ordinal is the stratum's lower end, moved by the word of the seed and the stratum. */
  lemma OrdinalIs(seed: int, s: nat, count: nat, total: nat, lower: nat, upper: nat)
    requires 0 < count <= total && lower == s * total / count && upper == (s + 1) * total / count
    ensures lower < upper && Ordinal(seed, s, count, total) == lower + Word(seed, s) % (upper - lower)
  {
    hide Ordinal, Word, Lower;
    LowerIs(s, count, total);
    LowerIs(s + 1, count, total);
    InStratum(seed, s, count, total, lower, upper);
  }

  lemma InStratum(seed: int, s: nat, count: nat, total: nat, lower: nat, upper: nat)
    requires 0 < count <= total && lower == Lower(s, count, total) && upper == Lower(s + 1, count, total)
    ensures lower < upper && Ordinal(seed, s, count, total) == lower + Word(seed, s) % (upper - lower)
  {
    hide Word, Lower, Ceiling;
    StratumSize(s, count, total);
  }

  lemma LowerIs(s: nat, count: nat, total: nat)
    requires count > 0
    ensures Lower(s, count, total) == s * total / count
  {
  }

  /** The word mixes the seed and the stratum, both modulo two to the 64. */
  lemma WordIs(seed: int, s: nat)
    ensures Word(seed, s) == SplitMix64(((seed % 0x1_0000_0000_0000_0000) as bv64) ^ ((s % 0x1_0000_0000_0000_0000) as bv64)) as nat
  {
    hide SplitMix64;
  }

  /** One ordinal per stratum: they ascend, stay below the total, and neighbours are close. */
  lemma OrdinalsAscend(seed: int, s: nat, t: nat, count: nat, total: nat)
    requires 0 < count <= total && s < t < count
    ensures Ordinal(seed, s, count, total) < Ordinal(seed, t, count, total) < total
    ensures t == s + 1 ==> Ordinal(seed, t, count, total) - Ordinal(seed, s, count, total) <= 2 * Ceiling(total, count) - 1
  {
    hide Lower, Ceiling, Word;
    StrataAscend(s + 1, t, count, total);
    StrataAscend(t + 1, count, count, total);
    LastStratum(count, total);
    StratumSize(s, count, total);
    StratumSize(t, count, total);
  }

  // ---------- records ----------

  function Eligible(length: nat): nat {
    if length < 2 then 0 else length - 2
  }

  /** How many eligible positions the first `k` records have. */
  function Prefix(lengths: seq<nat>, k: nat): nat
    requires k <= |lengths|
  {
    if k == 0 then 0 else Prefix(lengths, k - 1) + Eligible(lengths[k - 1])
  }

  lemma {:induction false} PrefixAscends(lengths: seq<nat>, j: nat, k: nat)
    requires j <= k <= |lengths|
    ensures Prefix(lengths, j) <= Prefix(lengths, k)
  {
    if j < k {
      PrefixAscends(lengths, j, k - 1);
    }
  }

  /** Ordinal `o` falls in record `r`. */
  predicate InRecord(lengths: seq<nat>, r: nat, o: nat) {
    r < |lengths| && Prefix(lengths, r) <= o < Prefix(lengths, r + 1)
  }

  lemma OneRecord(lengths: seq<nat>, r: nat, q: nat, o: nat)
    requires InRecord(lengths, r, o) && InRecord(lengths, q, o)
    ensures r == q
  {
    if r < q {
      PrefixAscends(lengths, r + 1, q);
    } else if q < r {
      PrefixAscends(lengths, q + 1, r);
    }
  }

  /** The anchors of record `r` among the first `n` strata, by prefix-sum lookup. */
  function AnchorsOf(lengths: seq<nat>, seed: int, count: nat, r: nat, n: nat): seq<nat>
    requires r < |lengths| && 0 < count <= Prefix(lengths, |lengths|)
  {
    if n == 0 then []
    else
      var rest, o := AnchorsOf(lengths, seed, count, r, n - 1), Ordinal(seed, n - 1, count, Prefix(lengths, |lengths|));
      if InRecord(lengths, r, o) then rest + [o - Prefix(lengths, r) + 1] else rest
  }

  predicate Selectable(lengths: seq<nat>, count: int) {
    lengths != [] && 0 < count <= Prefix(lengths, |lengths|)
  }

  /** The anchor of a stratum is where its ordinal falls. */
  predicate Places(lengths: seq<nat>, o: nat, anchor: Anchor) {
    InRecord(lengths, anchor.record, o) && anchor.position == o - Prefix(lengths, anchor.record) + 1
  }

  /** `sum(eligible)` */
  method Total(lengths: seq<nat>) returns (total: nat)
    ensures total == Prefix(lengths, |lengths|)
  {
    total := 0;
    var k := 0;
    while k < |lengths|
      invariant 0 <= k <= |lengths| && total == Prefix(lengths, k)
    {
      total := total + Eligible(lengths[k]);
      k := k + 1;
    }
  }

  /** The forward cursor: from a record at or before the ordinal's to the ordinal's own. */
  method Advance(lengths: seq<nat>, ordinal: nat, from: nat, base: nat) returns (record: nat, start: nat)
    requires from < |lengths| && base == Prefix(lengths, from) <= ordinal < Prefix(lengths, |lengths|)
    ensures InRecord(lengths, record, ordinal) && start == Prefix(lengths, record)
  {
    record, start := from, base;
    while ordinal >= start + Eligible(lengths[record])
      invariant record < |lengths| && start == Prefix(lengths, record) <= ordinal
      decreases |lengths| - record
    {
      assert Prefix(lengths, record + 1) == start + Eligible(lengths[record]);
      start := start + Eligible(lengths[record]);
      record := record + 1;
    }
  }

  /** `select_anchors` */
  method SelectAnchors(lengths: seq<nat>, count: int, seed: int) returns (r: Option<Selection>)
    ensures r.Some? <==> Selectable(lengths, count)
    ensures r.Some? ==> r.value.eligible == Prefix(lengths, |lengths|) && |r.value.positions| == |lengths| && |r.value.anchors| == count
    ensures r.Some? ==> forall k :: 0 <= k < |lengths| ==> r.value.positions[k] == AnchorsOf(lengths, seed, count, k, count)
    ensures r.Some? ==> forall s: nat :: s < count ==>
      Places(lengths, Ordinal(seed, s, count, Prefix(lengths, |lengths|)), r.value.anchors[s])
  {
    hide Ordinal, AnchorsOf, InRecord;
    var total := Total(lengths);
    if lengths == [] || !(0 < count <= total) {
      return None;
    }
    NoAnchors(lengths, seed, count);
    var groups: seq<seq<nat>> := seq(|lengths|, _ => []);
    var anchors: seq<Anchor> := [];
    var record, start := 0, 0;
    var stratum := 0;
    while stratum < count
      invariant 0 <= stratum <= count && |groups| == |lengths| && |anchors| == stratum
      invariant record < |lengths| && start == Prefix(lengths, record)
      invariant if stratum == 0 then start == 0 else start <= Ordinal(seed, stratum - 1, count, total)
      invariant forall k :: 0 <= k < |lengths| ==> groups[k] == AnchorsOf(lengths, seed, count, k, stratum)
      invariant forall s: nat :: s < stratum ==> Places(lengths, Ordinal(seed, s, count, total), anchors[s])
    {
      var ordinal := Ordinal(seed, stratum, count, total);
      if stratum > 0 {
        OrdinalsAscend(seed, stratum - 1, stratum, count, total);
      }
      OrdinalIsEligible(seed, stratum, count, total);
      record, start := Advance(lengths, ordinal, record, start);
      var position := InRecordStart(lengths, record, ordinal, start);
      AnchorsNext(lengths, seed, count, record, stratum);
      groups := groups[record := groups[record] + [position]];
      anchors := anchors + [Anchor(record, position)];
      stratum := stratum + 1;
    }
    r := Some(Selection(total, groups, anchors));
  }

  /** The token position of an ordinal in its record. */
  function InRecordStart(lengths: seq<nat>, record: nat, ordinal: nat, start: nat): (position: nat)
    requires InRecord(lengths, record, ordinal) && start == Prefix(lengths, record)
    ensures Places(lengths, ordinal, Anchor(record, position)) && start <= ordinal
  {
    ordinal - start + 1
  }

  lemma NoAnchors(lengths: seq<nat>, seed: int, count: nat)
    requires 0 < count <= Prefix(lengths, |lengths|)
    ensures forall k :: 0 <= k < |lengths| ==> AnchorsOf(lengths, seed, count, k, 0) == []
  {
  }

  lemma AnchorsNext(lengths: seq<nat>, seed: int, count: nat, r: nat, n: nat)
    requires 0 < count <= Prefix(lengths, |lengths|) && InRecord(lengths, r, Ordinal(seed, n, count, Prefix(lengths, |lengths|)))
    ensures var anchor := Ordinal(seed, n, count, Prefix(lengths, |lengths|)) - Prefix(lengths, r) + 1;
      forall k :: 0 <= k < |lengths| ==>
        AnchorsOf(lengths, seed, count, k, n + 1) == AnchorsOf(lengths, seed, count, k, n) + (if k == r then [anchor] else [])
  {
    hide Ordinal;
    var o := Ordinal(seed, n, count, Prefix(lengths, |lengths|));
    forall k | 0 <= k < |lengths| && k != r ensures !InRecord(lengths, k, o) {
      NotInOther(lengths, r, k, o);
    }
  }

  lemma OrdinalIsEligible(seed: int, s: nat, count: nat, total: nat)
    requires 0 < count <= total && s < count
    ensures Ordinal(seed, s, count, total) < total
  {
    hide Lower, Word;
    StrataAscend(s + 1, count, count, total);
    LastStratum(count, total);
  }

  lemma NotInOther(lengths: seq<nat>, r: nat, q: nat, o: nat)
    requires InRecord(lengths, r, o) && r != q
    ensures !InRecord(lengths, q, o)
  {
    if InRecord(lengths, q, o) {
      OneRecord(lengths, r, q, o);
    }
  }

  /** The ordinals number exactly the positions that leave one token before and one after, record by record. */
  lemma OrdinalsNumberPositions(lengths: seq<nat>, r: nat, p: nat, o: nat)
    requires r < |lengths|
    ensures 1 <= p && p + 2 <= lengths[r] ==>
      Prefix(lengths, r) + p - 1 < Prefix(lengths, |lengths|) && Places(lengths, Prefix(lengths, r) + p - 1, Anchor(r, p))
    ensures Places(lengths, o, Anchor(r, p)) ==> 1 <= p && p + 2 <= lengths[r] && o == Prefix(lengths, r) + p - 1
  {
    PrefixAscends(lengths, r + 1, |lengths|);
  }

  /** And every ordinal below the total falls somewhere. */
  lemma {:induction false} OrdinalFalls(lengths: seq<nat>, k: nat, o: nat)
    requires k <= |lengths| && o < Prefix(lengths, k)
    ensures exists r: nat :: r < k && InRecord(lengths, r, o)
  {
    if o >= Prefix(lengths, k - 1) {
      assert InRecord(lengths, k - 1, o);
    } else {
      OrdinalFalls(lengths, k - 1, o);
    }
  }

  // ---------- what a selection promises ----------

  /** Every anchor leaves a visible history before it and a known token after it; anchors of a record
      strictly ascend, so no two coincide. */
  lemma {:induction false} AnchorsAreValid(lengths: seq<nat>, seed: int, count: nat, r: nat, n: nat)
    requires r < |lengths| && 0 < count <= Prefix(lengths, |lengths|) && n <= count
    ensures var a := AnchorsOf(lengths, seed, count, r, n);
      && (forall i :: 0 <= i < |a| ==> 1 <= a[i] && a[i] + 2 <= lengths[r])
      && (forall i, j :: 0 <= i < j < |a| ==> a[i] < a[j])
      && (a != [] ==> n > 0 && a[|a| - 1] + Prefix(lengths, r) <= Ordinal(seed, n - 1, count, Prefix(lengths, |lengths|)) + 1)
  {
    hide Lower, Word, Ordinal;
    if n > 0 {
      AnchorsAreValid(lengths, seed, count, r, n - 1);
      if n > 1 {
        OrdinalsAscend(seed, n - 2, n - 1, count, Prefix(lengths, |lengths|));
      }
    }
  }

  /** How many anchors the first `k` records hold. */
  function Held(lengths: seq<nat>, seed: int, count: nat, k: nat, n: nat): nat
    requires k <= |lengths| && 0 < count <= Prefix(lengths, |lengths|)
  {
    if k == 0 then 0 else Held(lengths, seed, count, k - 1, n) + |AnchorsOf(lengths, seed, count, k - 1, n)|
  }

  /** Exactly as many anchors as strata, over all records. */
  lemma {:induction false} ExactlyCount(lengths: seq<nat>, seed: int, count: nat, n: nat)
    requires 0 < count <= Prefix(lengths, |lengths|) && n <= count
    ensures Held(lengths, seed, count, |lengths|, n) == n
  {
    hide Ordinal, AnchorsOf;
    if n == 0 {
      NoneHeld(lengths, seed, count, |lengths|);
    } else {
      ExactlyCount(lengths, seed, count, n - 1);
      OrdinalIsEligible(seed, n - 1, count, Prefix(lengths, |lengths|));
      HeldGrows(lengths, seed, count, |lengths|, n);
    }
  }

  lemma {:induction false} NoneHeld(lengths: seq<nat>, seed: int, count: nat, k: nat)
    requires k <= |lengths| && 0 < count <= Prefix(lengths, |lengths|)
    ensures Held(lengths, seed, count, k, 0) == 0
  {
    if k > 0 {
      NoneHeld(lengths, seed, count, k - 1);
    }
  }

  /** A stratum adds one anchor to the records up to and past the one it falls in. */
  lemma {:induction false} HeldGrows(lengths: seq<nat>, seed: int, count: nat, k: nat, n: nat)
    requires k <= |lengths| && 0 < count <= Prefix(lengths, |lengths|) && 0 < n <= count
    ensures Held(lengths, seed, count, k, n) == Held(lengths, seed, count, k, n - 1)
      + (if Ordinal(seed, n - 1, count, Prefix(lengths, |lengths|)) < Prefix(lengths, k) then 1 else 0)
  {
    hide Ordinal;
    if k > 0 {
      HeldGrows(lengths, seed, count, k - 1, n);
    }
  }
}
