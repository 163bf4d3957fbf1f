/** The lexicographic order on strings and a stable sort by any total preorder. */
module Order {

  /** Code-point order on strings, the order Python's `sorted` uses on ids and timestamps. */
  predicate StringLe(a: string, b: string) {
    a == "" || (b != "" && (a[0] < b[0] || (a[0] == b[0] && StringLe(a[1..], b[1..]))))
  }

  lemma {:induction false} StringLeTotal(a: string, b: string)
    ensures StringLe(a, b) || StringLe(b, a)
  {
    if a != "" && b != "" && a[0] == b[0] {
      StringLeTotal(a[1..], b[1..]);
    }
  }

  lemma {:induction false} StringLeTransitive(a: string, b: string, c: string)
    requires StringLe(a, b) && StringLe(b, c)
    ensures StringLe(a, c)
  {
    if a != "" && a[0] == b[0] && b[0] == c[0] {
      StringLeTransitive(a[1..], b[1..], c[1..]);
    }
  }

  lemma {:induction false} StringLeAntisymmetric(a: string, b: string)
    requires StringLe(a, b) && StringLe(b, a)
    ensures a == b
  {
    if a != "" {
      StringLeAntisymmetric(a[1..], b[1..]);
      assert a == [a[0]] + a[1..] && b == [b[0]] + b[1..];
    }
  }

  ghost predicate TotalPreorder<T(!new)>(le: (T, T) -> bool) {
    && (forall x, y :: le(x, y) || le(y, x))
    && (forall x, y, z :: le(x, y) && le(y, z) ==> le(x, z))
  }

  ghost predicate SortedBy<T(!new)>(xs: seq<T>, le: (T, T) -> bool) {
    forall i, j :: 0 <= i < j < |xs| ==> le(xs[i], xs[j])
  }

  function Insert<T>(x: T, xs: seq<T>, le: (T, T) -> bool): seq<T> {
    if xs == [] || le(x, xs[0]) then [x] + xs
    else [xs[0]] + Insert(x, xs[1..], le)
  }

  /** Stable insertion sort: equal keys keep their input order. */
  function Sort<T>(xs: seq<T>, le: (T, T) -> bool): seq<T> {
    if xs == [] then [] else Insert(xs[0], Sort(xs[1..], le), le)
  }

  lemma {:induction false} InsertMultiset<T>(x: T, xs: seq<T>, le: (T, T) -> bool)
    ensures multiset(Insert(x, xs, le)) == multiset(xs) + multiset{x}
  {
    if xs != [] && !le(x, xs[0]) {
      InsertMultiset(x, xs[1..], le);
      assert xs == [xs[0]] + xs[1..];
    }
  }

  lemma {:induction false} InsertSorted<T(!new)>(x: T, xs: seq<T>, le: (T, T) -> bool)
    requires TotalPreorder(le) && SortedBy(xs, le)
    ensures SortedBy(Insert(x, xs, le), le)
  {
    if xs != [] && !le(x, xs[0]) {
      var rest := Insert(x, xs[1..], le);
      InsertSorted(x, xs[1..], le);
      InsertMultiset(x, xs[1..], le);
      forall y | y in rest ensures le(xs[0], y) {
        assert y in multiset(rest);
        assert y == x || y in xs[1..];
      }
    }
  }

  lemma {:induction false} SortMultiset<T>(xs: seq<T>, le: (T, T) -> bool)
    ensures multiset(Sort(xs, le)) == multiset(xs)
    ensures |Sort(xs, le)| == |xs|
    ensures forall x :: x in Sort(xs, le) <==> x in xs
  {
    if xs != [] {
      SortMultiset(xs[1..], le);
      InsertMultiset(xs[0], Sort(xs[1..], le), le);
      assert xs == [xs[0]] + xs[1..];
    }
    assert |multiset(Sort(xs, le))| == |multiset(xs)|;
    forall x ensures x in Sort(xs, le) <==> x in xs {
      assert x in Sort(xs, le) <==> x in multiset(Sort(xs, le));
    }
  }

  lemma {:induction false} SortSorts<T(!new)>(xs: seq<T>, le: (T, T) -> bool)
    requires TotalPreorder(le)
    ensures SortedBy(Sort(xs, le), le)
  {
    if xs != [] {
      SortSorts(xs[1..], le);
      InsertSorted(xs[0], Sort(xs[1..], le), le);
    }
  }

  /** `le` tells the elements of `xs` apart. */
  ghost predicate SeparatesIn<T(!new)>(xs: seq<T>, le: (T, T) -> bool) {
    forall x, y :: x in xs && y in xs && le(x, y) && le(y, x) ==> x == y
  }

  /** The first elements of two sorted arrangements of the same elements agree. */
  lemma {:induction false} SameFirst<T(!new)>(xs: seq<T>, ys: seq<T>, le: (T, T) -> bool)
    requires SortedBy(xs, le) && SortedBy(ys, le) && multiset(xs) == multiset(ys)
    requires SeparatesIn(xs, le) && xs != [] && ys != []
    requires forall x :: le(x, x)
    ensures xs[0] == ys[0]
  {
    assert xs[0] in multiset(ys) && ys[0] in multiset(xs);
    var i :| 0 <= i < |ys| && ys[i] == xs[0];
    var j :| 0 <= j < |xs| && xs[j] == ys[0];
    assert le(ys[0], ys[i]) && le(xs[0], xs[j]);
  }

  lemma {:induction false} TailMultiset<T>(xs: seq<T>)
    requires xs != []
    ensures multiset(xs[1..]) == multiset(xs) - multiset{xs[0]}
  {
    assert xs == [xs[0]] + xs[1..];
  }

  lemma {:induction false} SortedUnique<T(!new)>(xs: seq<T>, ys: seq<T>, le: (T, T) -> bool)
    requires SortedBy(xs, le) && SortedBy(ys, le) && multiset(xs) == multiset(ys)
    requires SeparatesIn(xs, le)
    requires forall x :: le(x, x)
    ensures xs == ys
  {
    assert |multiset(xs)| == |multiset(ys)|;
    if xs != [] {
      SameFirst(xs, ys, le);
      TailMultiset(xs);
      TailMultiset(ys);
      SortedUnique(xs[1..], ys[1..], le);
      assert xs == [xs[0]] + xs[1..] && ys == [ys[0]] + ys[1..];
    }
  }

  /** Sorting does not depend on the order of the input when keys tell the elements apart. */
  lemma {:induction false} SortIgnoresOrder<T(!new)>(xs: seq<T>, ys: seq<T>, le: (T, T) -> bool)
    requires TotalPreorder(le) && multiset(xs) == multiset(ys) && SeparatesIn(xs, le)
    ensures Sort(xs, le) == Sort(ys, le)
  {
    SortSorts(xs, le);
    SortSorts(ys, le);
    SortMultiset(xs, le);
    SortMultiset(ys, le);
    assert forall x :: le(x, x);
    SortedUnique(Sort(xs, le), Sort(ys, le), le);
  }

  /** A sorted list is its own sort. */
  lemma {:induction false} SortOfSorted<T(!new)>(xs: seq<T>, le: (T, T) -> bool)
    requires TotalPreorder(le) && SortedBy(xs, le)
    ensures Sort(xs, le) == xs
  {
    if xs != [] {
      SortOfSorted(xs[1..], le);
      assert Sort(xs, le) == [xs[0]] + xs[1..] by {
        if |xs| > 1 { assert le(xs[0], xs[1..][0]); }
      }
    }
  }
}
