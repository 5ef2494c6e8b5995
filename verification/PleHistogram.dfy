/** The histogram pass over a table and the largest magnitude it yields. The OpenMP schedule is a
    parameter, so the result holds for every assignment of groups to threads and every merge order. */
module PleHistogram {
  import opened Bytes
  import opened Nvfp4
  import opened PleBlock

  /** Weights and exponents of `rows` rows: 256 weights and 8 exponents each. */
  predicate Shaped(w: seq<Byte>, s: seq<Byte>, rows: nat) {
    |w| == rows * 256 && |s| == rows * 8
  }

  // ---------- statistics ----------

  function Group(w: seq<Byte>, b: nat): seq<Byte>
    requires b * 32 + 32 <= |w|
  {
    w[b * 32..b * 32 + 32]
  }

  predicate Nonfinite(w: seq<Byte>, s: seq<Byte>, b: nat)
    requires b * 32 + 32 <= |w| && b < |s|
  {
    MaxCode(Group(w, b)) == 127 || s[b] == 255
  }

  /** What group `b` contributes to slot `e`: its largest code in its exponent's slot, and the sentinel. */
  function StatOf(w: seq<Byte>, s: seq<Byte>, b: nat, e: nat): (r: Byte)
    requires b * 32 + 32 <= |w| && b < |s|
    ensures r < 128
  {
    if e == 255 then (if Nonfinite(w, s, b) then 127 else 0)
    else if e == s[b] then MaxCode(Group(w, b)) else 0
  }

  /** The largest contribution to slot `e` among the first `n` groups run by the given threads. */
  function StatMax(w: seq<Byte>, s: seq<Byte>, owner: seq<nat>, threads: set<nat>, n: nat, e: nat): (r: Byte)
    requires n * 32 <= |w| && n <= |s| && n <= |owner|
    ensures r < 128
  {
    if n == 0 then 0
    else Max(StatMax(w, s, owner, threads, n - 1, e), if owner[n - 1] in threads then StatOf(w, s, n - 1, e) else 0)
  }

  /** The whole-table statistic. */
  function TableMax(w: seq<Byte>, s: seq<Byte>, n: nat, e: nat): (r: Byte)
    requires n * 32 <= |w| && n <= |s|
    ensures r < 128
  {
    if n == 0 then 0 else Max(TableMax(w, s, n - 1, e), StatOf(w, s, n - 1, e))
  }

  lemma {:induction false} StatMaxJoins(w: seq<Byte>, s: seq<Byte>, owner: seq<nat>, threads: set<nat>, t: nat, n: nat, e: nat)
    requires n * 32 <= |w| && n <= |s| && n <= |owner|
    ensures StatMax(w, s, owner, threads + {t}, n, e) == Max(StatMax(w, s, owner, threads, n, e), StatMax(w, s, owner, {t}, n, e))
  {
    if n > 0 {
      StatMaxJoins(w, s, owner, threads, t, n - 1, e);
    }
  }

  lemma {:induction false} StatMaxOfNone(w: seq<Byte>, s: seq<Byte>, owner: seq<nat>, n: nat, e: nat)
    requires n * 32 <= |w| && n <= |s| && n <= |owner|
    ensures StatMax(w, s, owner, {}, n, e) == 0
  {
    if n > 0 {
      StatMaxOfNone(w, s, owner, n - 1, e);
    }
  }

  lemma {:induction false} StatMaxOfAll(w: seq<Byte>, s: seq<Byte>, owner: seq<nat>, threads: set<nat>, n: nat, e: nat)
    requires n * 32 <= |w| && n <= |s| && n <= |owner| && forall b :: 0 <= b < n ==> owner[b] in threads
    ensures StatMax(w, s, owner, threads, n, e) == TableMax(w, s, n, e)
  {
    if n > 0 {
      StatMaxOfAll(w, s, owner, threads, n - 1, e);
    }
  }

  /** The largest code of a group, as the inner loop finds it. */
  method GroupMax(w: seq<Byte>, start: nat, length: nat) returns (m: Byte)
    requires start + length <= |w|
    ensures m == MaxCode(w[start..start + length]) && m < 128
  {
    m := 0;
    var j := 0;
    while j < length
      invariant 0 <= j <= length && m < 128 && m == MaxCode(w[start..start + j])
    {
      assert w[start..start + j + 1][..j] == w[start..start + j];
      m := Max(m, w[start + j] % 128);
      j := j + 1;
    }
  }

  /** One thread's share of `ple_stats`. */
  method ThreadStats(w: seq<Byte>, s: seq<Byte>, rows: nat, owner: seq<nat>, t: nat) returns (local: array<Byte>)
    requires Shaped(w, s, rows) && |owner| == rows * 8
    ensures fresh(local) && local.Length == 256
    ensures forall e :: 0 <= e < 256 ==> local[e] == StatMax(w, s, owner, {t}, rows * 8, e)
  {
    hide MaxCode;
    local := new Byte[256](_ => 0);
    var b := 0;
    while b < rows * 8
      invariant 0 <= b <= rows * 8
      invariant forall e :: 0 <= e < 256 ==> local[e] == StatMax(w, s, owner, {t}, b, e)
    {
      if owner[b] == t {
        var m := GroupMax(w, b * 32, 32);
        local[s[b]] := Max(local[s[b]], m);
        if m == 127 || s[b] == 255 {
          local[255] := 127;
        }
      }
      b := b + 1;
    }
  }

  /** `ple_stats`: threads merge their maxima in any order. */
  method PleStats(w: seq<Byte>, s: seq<Byte>, rows: nat, owner: seq<nat>, order: seq<nat>, maxima: array<Byte>)
    requires Shaped(w, s, rows) && maxima.Length == 256
    requires |owner| == rows * 8 && forall b :: 0 <= b < rows * 8 ==> owner[b] in order
    modifies maxima
    ensures forall e :: 0 <= e < 256 ==> maxima[e] == Max(old(maxima[e]), TableMax(w, s, rows * 8, e))
  {
    var k := 0;
    ghost var done: set<nat> := {};
    forall e | 0 <= e < 256 ensures StatMax(w, s, owner, {}, rows * 8, e) == 0 {
      StatMaxOfNone(w, s, owner, rows * 8, e);
    }
    while k < |order|
      invariant 0 <= k <= |order| && forall i :: 0 <= i < k ==> order[i] in done
      invariant forall e :: 0 <= e < 256 ==> maxima[e] == Max(old(maxima[e]), StatMax(w, s, owner, done, rows * 8, e))
    {
      var local := ThreadStats(w, s, rows, owner, order[k]);
      MergeMaxima(maxima, local);
      forall e | 0 <= e < 256
        ensures StatMax(w, s, owner, done + {order[k]}, rows * 8, e)
             == Max(StatMax(w, s, owner, done, rows * 8, e), StatMax(w, s, owner, {order[k]}, rows * 8, e))
      {
        StatMaxJoins(w, s, owner, done, order[k], rows * 8, e);
      }
      done := done + {order[k]};
      k := k + 1;
    }
    forall e | 0 <= e < 256 ensures StatMax(w, s, owner, done, rows * 8, e) == TableMax(w, s, rows * 8, e) {
      StatMaxOfAll(w, s, owner, done, rows * 8, e);
    }
  }

  method MergeMaxima(maxima: array<Byte>, local: array<Byte>)
    requires maxima.Length == 256 == local.Length && maxima != local
    modifies maxima
    ensures forall e :: 0 <= e < 256 ==> maxima[e] == Max(old(maxima[e]), local[e])
  {
    var e := 0;
    while e < 256
      invariant 0 <= e <= 256
      invariant forall i :: 0 <= i < 256 ==> maxima[i] == if i < e then Max(old(maxima[i]), local[i]) else old(maxima[i])
    {
      maxima[e] := Max(maxima[e], local[e]);
      e := e + 1;
    }
  }

  // ---------- the table's largest magnitude ----------

  /** No NaN weight and no NaN exponent. */
  ghost predicate Finite(w: seq<Byte>, s: seq<Byte>, rows: nat)
    requires Shaped(w, s, rows)
  {
    (forall i :: 0 <= i < |w| ==> w[i] % 128 != 127) && (forall b :: 0 <= b < |s| ==> s[b] != 255)
  }

  /** A weight and the exponent of its group. */
  function TableMagnitude(w: seq<Byte>, s: seq<Byte>, i: nat): real
    requires i < |w| && i / 32 < |s|
  {
    Magnitude(s[i / 32], w[i])
  }

  lemma {:induction false} TableMaxBounds(w: seq<Byte>, s: seq<Byte>, n: nat, b: nat, e: nat)
    requires n * 32 <= |w| && n <= |s| && b < n
    ensures StatOf(w, s, b, e) <= TableMax(w, s, n, e)
  {
    hide StatOf;
    if b < n - 1 {
      TableMaxBounds(w, s, n - 1, b, e);
    }
  }

  lemma {:induction false} TableMaxAttained(w: seq<Byte>, s: seq<Byte>, n: nat, e: nat)
    requires n * 32 <= |w| && n <= |s| && TableMax(w, s, n, e) > 0
    ensures exists b :: 0 <= b < n && StatOf(w, s, b, e) == TableMax(w, s, n, e)
  {
    hide StatOf;
    if TableMax(w, s, n, e) != StatOf(w, s, n - 1, e) {
      TableMaxAttained(w, s, n - 1, e);
    }
  }

  /** The sentinel is clear exactly on finite tables. */
  lemma SentinelIsExact(w: seq<Byte>, s: seq<Byte>, rows: nat)
    requires Shaped(w, s, rows)
    ensures TableMax(w, s, rows * 8, 255) == 0 <==> Finite(w, s, rows)
  {
    if TableMax(w, s, rows * 8, 255) == 0 {
      forall b | 0 <= b < rows * 8 ensures !Nonfinite(w, s, b) {
        TableMaxBounds(w, s, rows * 8, b, 255);
      }
      forall i | 0 <= i < |w| ensures w[i] % 128 != 127 {
        assert !Nonfinite(w, s, i / 32);
        MaxCodeBounds(Group(w, i / 32), i % 32);
      }
      forall b | 0 <= b < |s| ensures s[b] != 255 {
        assert !Nonfinite(w, s, b);
      }
    } else {
      TableMaxAttained(w, s, rows * 8, 255);
      var b :| 0 <= b < rows * 8 && StatOf(w, s, b, 255) == TableMax(w, s, rows * 8, 255);
      NonfiniteGroup(w, s, rows, b);
    }
  }

  lemma NonfiniteGroup(w: seq<Byte>, s: seq<Byte>, rows: nat, b: nat)
    requires Shaped(w, s, rows) && b < rows * 8 && Nonfinite(w, s, b)
    ensures !Finite(w, s, rows)
  {
    if s[b] != 255 {
      MaxCodeAttained(Group(w, b));
      var j :| 0 <= j < 32 && Group(w, b)[j] % 128 == 127;
      assert w[b * 32 + j] % 128 == 127;
    }
  }

  /** The value of a slot of the histogram. */
  function Slot(e: nat, m: Byte): real {
    Value8(m) * Exp2(e - 127)
  }

  /** The largest value the maxima of exponents below `n` stand for. */
  function Largest(maxima: seq<Byte>, n: nat): (a: real)
    requires n <= |maxima|
    ensures a >= 0.0
  {
    if n == 0 then 0.0
    else
      var a, x := Largest(maxima, n - 1), Slot(n - 1, maxima[n - 1]);
      if maxima[n - 1] > 0 && x > a then x else a
  }

  datatype Amax = NotANumber | Amax(value: real)

  /** `ple_amax` */
  method PleAmax(maxima: array<Byte>) returns (r: Amax)
    requires maxima.Length == 256
    ensures maxima[255] > 0 <==> r.NotANumber?
    ensures r.Amax? ==> r.value == Largest(maxima[..], 255)
  {
    hide Slot;
    if maxima[255] > 0 {
      return NotANumber;
    }
    var a, e := 0.0, 0;
    while e < 255
      invariant 0 <= e <= 255 && a == Largest(maxima[..], e)
    {
      if maxima[e] > 0 {
        var x := Slot(e, maxima[e]);
        a := if x > a then x else a;
      }
      e := e + 1;
    }
    r := Amax(a);
  }

  lemma {:induction false} LargestBounds(maxima: seq<Byte>, n: nat, e: nat, v: nat)
    requires e < n <= |maxima| && v % 128 <= maxima[e]
    ensures Magnitude(e, v) <= Largest(maxima, n)
  {
    hide Value8, Exp2;
    if e < n - 1 {
      LargestBounds(maxima, n - 1, e, v);
    } else {
      Landmarks();
      if v % 128 < maxima[e] {
        Value8Increases(v % 128, maxima[e]);
      }
      Product(Value8(v % 128), Value8(maxima[e]), Exp2(e - 127));
    }
  }

  lemma {:induction false} LargestAttained(maxima: seq<Byte>, n: nat)
    requires n <= |maxima| && Largest(maxima, n) > 0.0
    ensures exists e :: 0 <= e < n && maxima[e] > 0 && Slot(e, maxima[e]) == Largest(maxima, n)
  {
    hide Slot;
    var x := Slot(n - 1, maxima[n - 1]);
    if !(maxima[n - 1] > 0 && x > Largest(maxima, n - 1)) {
      LargestAttained(maxima, n - 1);
    }
  }

  /** The histogram maximum is the largest magnitude of the table: no weight exceeds it, and one has it
      unless every weight is zero. */
  lemma AmaxIsLargest(w: seq<Byte>, s: seq<Byte>, rows: nat, maxima: seq<Byte>)
    requires Shaped(w, s, rows) && Finite(w, s, rows) && |maxima| == 256
    requires forall e :: 0 <= e < 256 ==> maxima[e] == TableMax(w, s, rows * 8, e)
    ensures forall i :: 0 <= i < |w| ==> TableMagnitude(w, s, i) <= Largest(maxima, 255)
    ensures Largest(maxima, 255) > 0.0 ==> exists i :: 0 <= i < |w| && TableMagnitude(w, s, i) == Largest(maxima, 255)
  {
    hide Slot, TableMagnitude, Largest, TableMax, Finite;
    forall i | 0 <= i < |w| ensures TableMagnitude(w, s, i) <= Largest(maxima, 255) {
      WeightIsBounded(w, s, rows, maxima, i);
    }
    if Largest(maxima, 255) > 0.0 {
      LargestAttained(maxima, 255);
      var e :| 0 <= e < 255 && maxima[e] > 0 && Slot(e, maxima[e]) == Largest(maxima, 255);
      WeightAttains(w, s, rows, e, maxima[e]);
    }
  }

  lemma WeightIsBounded(w: seq<Byte>, s: seq<Byte>, rows: nat, maxima: seq<Byte>, i: nat)
    requires Shaped(w, s, rows) && Finite(w, s, rows) && |maxima| == 256 && i < |w|
    requires forall e :: 0 <= e < 256 ==> maxima[e] == TableMax(w, s, rows * 8, e)
    ensures TableMagnitude(w, s, i) <= Largest(maxima, 255)
  {
    hide MaxCode, Magnitude, Largest, TableMax;
    var b := i / 32;
    MaxCodeBounds(Group(w, b), i % 32);
    TableMaxBounds(w, s, rows * 8, b, s[b]);
    LargestBounds(maxima, 255, s[b], w[i]);
  }

  lemma WeightAttains(w: seq<Byte>, s: seq<Byte>, rows: nat, e: nat, m: Byte)
    requires Shaped(w, s, rows) && e < 255 && m == TableMax(w, s, rows * 8, e) && m > 0
    ensures exists i :: 0 <= i < |w| && TableMagnitude(w, s, i) == Slot(e, m)
  {
    hide MaxCode, Value8, Exp2;
    TableMaxAttained(w, s, rows * 8, e);
    var b :| 0 <= b < rows * 8 && StatOf(w, s, b, e) == TableMax(w, s, rows * 8, e);
    MaxCodeAttained(Group(w, b));
    var j :| 0 <= j < 32 && Group(w, b)[j] % 128 == MaxCode(Group(w, b));
    assert (b * 32 + j) / 32 == b;
    assert TableMagnitude(w, s, b * 32 + j) == Slot(e, m);
  }
}
