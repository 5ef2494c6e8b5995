/** The routed K3.25 recipe: which matrices exist, how many are upgraded, and which ones. */
module Recipe {
  import opened Sorting

  datatype Namespace = Base | Mtp
  datatype Projection = W1 | W2 | W3
  datatype Phase = GateUp | Down

  function Layers(ns: Namespace): nat {
    if ns == Base then 40 else 3
  }

  function Experts(ns: Namespace): nat {
    if ns == Base then 384 else 128
  }

  function Ratio(p: Projection): nat {
    match p
    case W1 => 3
    case W3 => 5
    case W2 => 8
  }

  function QuotaOf(experts: nat, p: Projection): nat {
    experts * 3 * Ratio(p) / 64
  }

  function Quota(ns: Namespace, p: Projection): nat {
    QuotaOf(Experts(ns), p)
  }

  function Projections(ph: Phase): seq<Projection> {
    if ph == GateUp then [W1, W3] else [W2]
  }

  function PhaseOf(p: Projection): Phase {
    if p == W2 then Down else GateUp
  }

  /** For any expert count the file formats allow, a quarter of the equal-sized matrices is upgraded. */
  lemma QuotasAreAQuarter(experts: nat)
    requires experts % 64 == 0
    ensures 4 * (QuotaOf(experts, W1) + QuotaOf(experts, W2) + QuotaOf(experts, W3)) == 3 * experts
    ensures forall p :: QuotaOf(experts, p) <= experts
  {
    var q := experts / 64;
    assert QuotaOf(experts, W1) == 9 * q;
    assert QuotaOf(experts, W3) == 15 * q;
    assert QuotaOf(experts, W2) == 24 * q;
  }

  /** The K4 matrices of each projection in a block, of 384 in each of the main model's 40 blocks, and of 128 in
      each of the draft's 3. */
  lemma QuotasInNumbers()
    ensures Layers(Base) == 40 && Experts(Base) == 384 && Quota(Base, W1) == 54 && Quota(Base, W3) == 90 && Quota(Base, W2) == 144
    ensures Layers(Mtp) == 3 && Experts(Mtp) == 128 && Quota(Mtp, W1) == 18 && Quota(Mtp, W3) == 30 && Quota(Mtp, W2) == 48
  {
  }

  // ---------- choosing the upgrades ----------

  /** Python's order on (negated score, expert) tuples. */
  predicate ScoreLe(a: (real, nat), b: (real, nat)) {
    a.0 < b.0 || (a.0 == b.0 && a.1 <= b.1)
  }

  function Entries(scores: seq<real>): seq<(real, nat)> {
    seq(|scores|, e requires 0 <= e < |scores| => (-scores[e], e))
  }

  function Firsts(ranking: seq<(real, nat)>, quota: nat): (r: seq<nat>)
    requires quota <= |ranking|
    ensures |r| == quota
  {
    seq(quota, i requires 0 <= i < quota => ranking[i].1)
  }

  function Top(scores: seq<real>, quota: nat): (r: seq<nat>)
    requires quota <= |scores|
    ensures |r| == quota
  {
    Firsts(Sort(Entries(scores), ScoreLe), quota)
  }

  /** `e` is preferred to `f`: a higher risk, or the same risk and a lower index. */
  predicate Preferred(scores: seq<real>, e: nat, f: nat)
    requires e < |scores| && f < |scores|
  {
    scores[e] > scores[f] || (scores[e] == scores[f] && e < f)
  }

  lemma ScoreLeIsTotal()
    ensures TotalOrder(ScoreLe)
  {
  }

  /** All experts with their scores, once each and in order. */
  ghost predicate IsRanking(scores: seq<real>, ranking: seq<(real, nat)>) {
    && Sorted(ranking, ScoreLe) && Unique(ranking) && |ranking| == |scores|
    && (forall i :: 0 <= i < |ranking| ==> ranking[i].1 < |scores| && ranking[i].0 == -scores[ranking[i].1])
    && (forall e :: 0 <= e < |scores| ==> (-scores[e], e) in ranking)
  }

  lemma SortedIsRanking(scores: seq<real>)
    ensures IsRanking(scores, Sort(Entries(scores), ScoreLe))
  {
    ScoreLeIsTotal();
    var all := Entries(scores);
    SortSorts(all, ScoreLe);
    SortKeepsMembers(all, ScoreLe);
    SortKeepsUnique(all, ScoreLe);
    var ranking := Sort(all, ScoreLe);
    forall i | 0 <= i < |ranking| ensures ranking[i].1 < |scores| && ranking[i].0 == -scores[ranking[i].1] {
      assert ranking[i] in all;
    }
    forall e | 0 <= e < |scores| ensures (-scores[e], e) in ranking {
      assert all[e] in all;
    }
  }

  lemma FirstIsPreferred(scores: seq<real>, ranking: seq<(real, nat)>, quota: nat, i: nat, f: nat)
    requires IsRanking(scores, ranking) && i < quota <= |scores| && f < |scores| && f !in Firsts(ranking, quota)
    ensures Preferred(scores, Firsts(ranking, quota)[i], f)
  {
    var top := Firsts(ranking, quota);
    assert (-scores[f], f) in ranking;
    var n :| 0 <= n < |ranking| && ranking[n] == (-scores[f], f);
    assert forall m :: 0 <= m < quota ==> top[m] == ranking[m].1 && top[m] in top;
    assert quota <= n;
    assert ScoreLe(ranking[i], ranking[n]) && ranking[i] != ranking[n];
  }

  lemma FirstsAreUnique(scores: seq<real>, ranking: seq<(real, nat)>, quota: nat)
    requires IsRanking(scores, ranking) && quota <= |scores|
    ensures Unique(Firsts(ranking, quota))
    ensures forall i :: 0 <= i < quota ==> Firsts(ranking, quota)[i] < |scores|
  {
    forall i, j | 0 <= i < j < quota ensures Firsts(ranking, quota)[i] != Firsts(ranking, quota)[j] {
      assert ranking[i] != ranking[j];
    }
  }

  /** The choice is a set of `quota` experts that are all preferred to every other expert. */
  lemma TopIsPreferred(scores: seq<real>, quota: nat)
    requires quota <= |scores|
    ensures Unique(Top(scores, quota))
    ensures forall i :: 0 <= i < quota ==> Top(scores, quota)[i] < |scores|
    ensures forall i: nat, f: nat :: i < quota && f < |scores| && f !in Top(scores, quota) ==> Preferred(scores, Top(scores, quota)[i], f)
  {
    hide IsRanking, Preferred, Firsts;
    var ranking := Sort(Entries(scores), ScoreLe);
    SortedIsRanking(scores);
    FirstsAreUnique(scores, ranking, quota);
    forall i: nat, f: nat | i < quota && f < |scores| && f !in Top(scores, quota) ensures Preferred(scores, Top(scores, quota)[i], f) {
      FirstIsPreferred(scores, ranking, quota, i, f);
    }
  }

  /** And they come in the order of preference. */
  lemma TopIsOrdered(scores: seq<real>, quota: nat, i: nat, k: nat)
    requires i < k < quota <= |scores|
    ensures Top(scores, quota)[i] < |scores| && Top(scores, quota)[k] < |scores|
    ensures Preferred(scores, Top(scores, quota)[i], Top(scores, quota)[k])
  {
    SortedIsRanking(scores);
    var ranking := Sort(Entries(scores), ScoreLe);
    assert ScoreLe(ranking[i], ranking[k]) && ranking[i] != ranking[k];
  }

  /** The quotas stand in the ratio 3 : 5 : 8; with the quarter they make up, that determines them. */
  lemma QuotasAreInRatio(experts: nat)
    requires experts % 64 == 0
    ensures 8 * QuotaOf(experts, W1) == 3 * QuotaOf(experts, W2) && 8 * QuotaOf(experts, W3) == 5 * QuotaOf(experts, W2)
  {
    var q := experts / 64;
    assert QuotaOf(experts, W1) == 9 * q && QuotaOf(experts, W3) == 15 * q && QuotaOf(experts, W2) == 24 * q;
  }

  // ---------- the finished tier map ----------

  datatype Matrix = Matrix(ns: Namespace, layer: nat, expert: nat, projection: Projection)

  predicate Expected(m: Matrix) {
    m.layer < Layers(m.ns) && m.expert < Experts(m.ns)
  }

  function Upgraded(tiers: map<Matrix, int>, ns: Namespace, layer: nat, p: Projection): set<nat> {
    set e: nat | e < Experts(ns) && Matrix(ns, layer, e, p) in tiers && tiers[Matrix(ns, layer, e, p)] == 4
  }

  /** What `validate_source_tiers` accepts. */
  ghost predicate ValidSourceTiers(tiers: map<Matrix, int>) {
    && (forall m :: m in tiers <==> Expected(m))
    && (forall m :: m in tiers ==> tiers[m] == 3 || tiers[m] == 4)
    && (forall ns, layer: nat, p :: layer < Layers(ns) ==> |Upgraded(tiers, ns, layer, p)| == Quota(ns, p))
  }

  /** The bits of one projection over the first `n` experts, in matrix units. */
  function Bits(tiers: map<Matrix, int>, ns: Namespace, layer: nat, p: Projection, n: nat): int
    requires forall e: nat :: e < n ==> Matrix(ns, layer, e, p) in tiers
  {
    if n == 0 then 0 else Bits(tiers, ns, layer, p, n - 1) + tiers[Matrix(ns, layer, n - 1, p)]
  }

  function UpgradedBelow(tiers: map<Matrix, int>, ns: Namespace, layer: nat, p: Projection, n: nat): set<nat> {
    set e: nat | e < n && Matrix(ns, layer, e, p) in tiers && tiers[Matrix(ns, layer, e, p)] == 4
  }

  lemma {:induction false} BitsCountUpgrades(tiers: map<Matrix, int>, ns: Namespace, layer: nat, p: Projection, n: nat)
    requires forall e: nat :: e < n ==> Matrix(ns, layer, e, p) in tiers
    requires forall m :: m in tiers ==> tiers[m] == 3 || tiers[m] == 4
    ensures Bits(tiers, ns, layer, p, n) == 3 * n + |UpgradedBelow(tiers, ns, layer, p, n)|
  {
    if n > 0 {
      BitsCountUpgrades(tiers, ns, layer, p, n - 1);
      var small, big := UpgradedBelow(tiers, ns, layer, p, n - 1), UpgradedBelow(tiers, ns, layer, p, n);
      if tiers[Matrix(ns, layer, n - 1, p)] == 4 {
        assert big == small + {n - 1};
      } else {
        assert big == small;
      }
    }
  }

  function BlockBits(tiers: map<Matrix, int>, ns: Namespace, layer: nat): int
    requires forall m :: Expected(m) ==> m in tiers
    requires layer < Layers(ns)
  {
    assert forall e: nat, p :: e < Experts(ns) ==> Expected(Matrix(ns, layer, e, p));
    Bits(tiers, ns, layer, W1, Experts(ns)) + Bits(tiers, ns, layer, W2, Experts(ns)) + Bits(tiers, ns, layer, W3, Experts(ns))
  }

  function NamespaceBits(tiers: map<Matrix, int>, ns: Namespace, layers: nat): int
    requires forall m :: Expected(m) ==> m in tiers
    requires layers <= Layers(ns)
  {
    if layers == 0 then 0 else NamespaceBits(tiers, ns, layers - 1) + BlockBits(tiers, ns, layers - 1)
  }

  lemma ValidBlockBits(tiers: map<Matrix, int>, ns: Namespace, layer: nat)
    requires ValidSourceTiers(tiers) && layer < Layers(ns)
    ensures 4 * BlockBits(tiers, ns, layer) == 13 * 3 * Experts(ns)
  {
    QuotasAreAQuarter(Experts(ns));
    forall p ensures Bits(tiers, ns, layer, p, Experts(ns)) == 3 * Experts(ns) + Quota(ns, p) {
      BitsCountUpgrades(tiers, ns, layer, p, Experts(ns));
      assert UpgradedBelow(tiers, ns, layer, p, Experts(ns)) == Upgraded(tiers, ns, layer, p);
    }
  }

  lemma {:induction false} ValidNamespaceBits(tiers: map<Matrix, int>, ns: Namespace, layers: nat)
    requires ValidSourceTiers(tiers) && layers <= Layers(ns)
    ensures 4 * NamespaceBits(tiers, ns, layers) == 13 * 3 * Experts(ns) * layers
  {
    if layers > 0 {
      ValidNamespaceBits(tiers, ns, layers - 1);
      ValidBlockBits(tiers, ns, layers - 1);
    }
  }

  /** An accepted tier map spends exactly 13/4 bits a weight over its 47,232 equal-sized matrices. */
  lemma ValidTiersAverage(tiers: map<Matrix, int>)
    requires ValidSourceTiers(tiers)
    ensures var bits := NamespaceBits(tiers, Base, Layers(Base)) + NamespaceBits(tiers, Mtp, Layers(Mtp));
      bits as real / 47232.0 == 13.0 / 4.0
  {
    ValidNamespaceBits(tiers, Base, Layers(Base));
    ValidNamespaceBits(tiers, Mtp, Layers(Mtp));
  }
}
