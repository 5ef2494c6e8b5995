/** `sorted` and `list.sort` over a total order, and the first elements of the result. */
module Sorting {

  /** Any two elements compare, in a chain; ties are allowed. */
  ghost predicate Connected<T(!new)>(le: (T, T) -> bool) {
    && (forall x, y :: le(x, y) || le(y, x))
    && (forall x, y, z :: le(x, y) && le(y, z) ==> le(x, z))
  }

  ghost predicate TotalOrder<T(!new)>(le: (T, T) -> bool) {
    Connected(le) && forall x, y :: le(x, y) && le(y, x) ==> x == y
  }

  ghost predicate Sorted<T(!new)>(s: seq<T>, le: (T, T) -> bool) {
    forall i, j :: 0 <= i < j < |s| ==> le(s[i], s[j])
  }

  function Insert<T>(x: T, s: seq<T>, le: (T, T) -> bool): (r: seq<T>)
    ensures |r| == |s| + 1
  {
    if s == [] then [x]
    else if le(x, s[0]) then [x] + s
    else [s[0]] + Insert(x, s[1..], le)
  }

  function Sort<T>(s: seq<T>, le: (T, T) -> bool): (r: seq<T>)
    ensures |r| == |s|
  {
    if s == [] then [] else Insert(s[0], Sort(s[1..], le), le)
  }

  lemma {:induction false} InsertAdds<T>(x: T, s: seq<T>, le: (T, T) -> bool)
    ensures multiset(Insert(x, s, le)) == multiset(s) + multiset{x}
  {
    if s != [] {
      assert s == [s[0]] + s[1..];
      if !le(x, s[0]) {
        InsertAdds(x, s[1..], le);
      }
    }
  }

  lemma {:induction false} InsertSorts<T(!new)>(x: T, s: seq<T>, le: (T, T) -> bool)
    requires Connected(le) && Sorted(s, le)
    ensures Sorted(Insert(x, s, le), le)
  {
    if s != [] && !le(x, s[0]) {
      var t := Insert(x, s[1..], le);
      InsertSorts(x, s[1..], le);
      InsertAdds(x, s[1..], le);
      forall j | 0 <= j < |t| ensures le(s[0], t[j]) {
        assert t[j] in multiset(t);
        assert t[j] == x || t[j] in s[1..];
      }
    }
  }

  /** Sorting orders the elements and keeps exactly them. */
  lemma {:induction false} SortSorts<T(!new)>(s: seq<T>, le: (T, T) -> bool)
    requires Connected(le)
    ensures Sorted(Sort(s, le), le)
    ensures multiset(Sort(s, le)) == multiset(s)
  {
    if s != [] {
      assert s == [s[0]] + s[1..];
      SortSorts(s[1..], le);
      InsertAdds(s[0], Sort(s[1..], le), le);
      InsertSorts(s[0], Sort(s[1..], le), le);
    }
  }

  /** There is only one way to order the same elements, so the algorithm does not matter. */
  lemma {:induction false} SortedIsUnique<T(!new)>(s: seq<T>, t: seq<T>, le: (T, T) -> bool)
    requires TotalOrder(le) && Sorted(s, le) && Sorted(t, le) && multiset(s) == multiset(t)
    ensures s == t
    decreases |s|
  {
    assert |multiset(s)| == |s| && |multiset(t)| == |t|;
    if s != [] {
      SameFirst(s, t, le);
      TailCounts(s);
      TailCounts(t);
      SortedIsUnique(s[1..], t[1..], le);
      assert s == [s[0]] + s[1..] && t == [t[0]] + t[1..];
    }
  }

  lemma SameFirst<T(!new)>(s: seq<T>, t: seq<T>, le: (T, T) -> bool)
    requires TotalOrder(le) && Sorted(s, le) && Sorted(t, le) && multiset(s) == multiset(t) && s != [] && t != []
    ensures s[0] == t[0]
  {
    assert s[0] in multiset(s) && t[0] in multiset(t);
    assert s[0] in t && t[0] in s;
    assert le(t[0], s[0]) && le(s[0], t[0]);
  }

  lemma TailCounts<T>(s: seq<T>)
    requires s != []
    ensures multiset(s[1..]) == multiset(s) - multiset{s[0]}
  {
    assert s == [s[0]] + s[1..];
  }

  lemma SortKeepsMembers<T(!new)>(s: seq<T>, le: (T, T) -> bool)
    requires Connected(le)
    ensures forall x :: x in Sort(s, le) <==> x in s
  {
    SortSorts(s, le);
    forall x ensures x in Sort(s, le) <==> x in s {
      assert x in Sort(s, le) <==> x in multiset(Sort(s, le));
      assert x in s <==> x in multiset(s);
    }
  }

  predicate Unique<T(==)>(s: seq<T>) {
    forall i, j :: 0 <= i < j < |s| ==> s[i] != s[j]
  }

  lemma {:induction false} UniqueByCount<T>(s: seq<T>)
    ensures Unique(s) <==> forall x :: x in s ==> multiset(s)[x] == 1
  {
    if s != [] {
      var h, t := s[0], s[1..];
      assert s == [h] + t;
      UniqueByCount(t);
      assert Unique(s) <==> h !in t && Unique(t) by {
        if h in t {
          var i :| 0 <= i < |t| && t[i] == h;
          assert s[0] == s[i + 1];
        }
        if Unique(s) {
          forall i, j | 0 <= i < j < |t| ensures t[i] != t[j] {
            assert s[i + 1] != s[j + 1];
          }
        }
      }
      assert forall x :: multiset(s)[x] == multiset(t)[x] + (if x == h then 1 else 0);
    }
  }

  lemma SortKeepsUnique<T(!new)>(s: seq<T>, le: (T, T) -> bool)
    requires Connected(le) && Unique(s)
    ensures Unique(Sort(s, le))
  {
    SortSorts(s, le);
    SortKeepsMembers(s, le);
    UniqueByCount(s);
    UniqueByCount(Sort(s, le));
  }

  // ---------- names ----------

  /** Strings in code point order, a prefix first. */
  predicate NameLe(a: string, b: string) {
    a == "" || (b != "" && (a[0] < b[0] || (a[0] == b[0] && NameLe(a[1..], b[1..]))))
  }

  lemma {:induction false} NamesAreTotal(a: string, b: string)
    ensures NameLe(a, b) || NameLe(b, a)
  {
    if a != "" && b != "" && a[0] == b[0] {
      NamesAreTotal(a[1..], b[1..]);
    }
  }

  /** What determines the order: a prefix comes first, and otherwise the first character that differs decides. */
  lemma {:induction false} FirstDifferenceDecides(p: string, x: string, y: string)
    ensures NameLe(p, p + x)
    ensures x != "" && y != "" && x[0] < y[0] ==> NameLe(p + x, p + y) && !NameLe(p + y, p + x)
  {
    if p != "" {
      FirstDifferenceDecides(p[1..], x, y);
      assert (p + x)[1..] == p[1..] + x && (p + y)[1..] == p[1..] + y;
    } else {
      assert p + x == x && p + y == y;
    }
  }

  lemma {:induction false} NamesAreAntisymmetric(a: string, b: string)
    requires NameLe(a, b) && NameLe(b, a)
    ensures a == b
  {
    if a != "" {
      NamesAreAntisymmetric(a[1..], b[1..]);
      assert a == [a[0]] + a[1..] && b == [b[0]] + b[1..];
    }
  }

  lemma {:induction false} NamesAreTransitive(a: string, b: string, c: string)
    requires NameLe(a, b) && NameLe(b, c)
    ensures NameLe(a, c)
  {
    if a != "" && a[0] == b[0] == c[0] {
      NamesAreTransitive(a[1..], b[1..], c[1..]);
    }
  }

  lemma NamesConnect()
    ensures Connected(NameLe)
  {
    forall a, b ensures NameLe(a, b) || NameLe(b, a) {
      NamesAreTotal(a, b);
    }
    forall a, b, c | NameLe(a, b) && NameLe(b, c) ensures NameLe(a, c) {
      NamesAreTransitive(a, b, c);
    }
  }

  /** `sorted` */
  method NamesInOrder(keys: set<string>) returns (names: seq<string>)
    ensures Sorted(names, NameLe) && Unique(names) && forall n :: n in names <==> n in keys
  {
    var todo := keys;
    names := [];
    while todo != {}
      invariant todo <= keys && Unique(names) && forall n :: n in names <==> n in keys - todo
      decreases |todo|
    {
      var n :| n in todo;
      assert n !in names;
      names := names + [n];
      todo := todo - {n};
    }
    NamesConnect();
    SortSorts(names, NameLe);
    SortKeepsMembers(names, NameLe);
    SortKeepsUnique(names, NameLe);
    names := Sort(names, NameLe);
  }
}
