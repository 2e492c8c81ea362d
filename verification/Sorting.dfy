/** What Go's sort.SliceStable and sort.Slice return. The library sorts blocks of up to 20
    elements by insertion and merges the blocks. */
module Sorting {

  /** `less` is a strict weak order on the elements of `s`. */
  ghost predicate Consistent<T(!new)>(s: seq<T>, less: (T, T) -> bool) {
    && (forall x, y :: x in s && y in s && less(x, y) ==> !less(y, x))
    && (forall x, y, z :: x in s && y in s && z in s && !less(x, y) && !less(y, z) ==> !less(x, z))
  }

  ghost predicate SortedBy<T(!new)>(s: seq<T>, less: (T, T) -> bool) {
    forall i, j :: 0 <= i < j < |s| ==> !less(s[j], s[i])
  }

  /** Distinct elements never tie. */
  ghost predicate NoTies<T(!new)>(s: seq<T>, less: (T, T) -> bool) {
    forall x, y :: x in s && y in s && x != y ==> less(x, y) || less(y, x)
  }

  /** Moves `x` left past every element it beats. */
  function Insert<T>(s: seq<T>, x: T, less: (T, T) -> bool): (r: seq<T>)
    ensures |r| == |s| + 1
  {
    if s != [] && less(x, s[|s| - 1]) then Insert(s[..|s| - 1], x, less) + [s[|s| - 1]] else s + [x]
  }

  function StableSort<T>(s: seq<T>, less: (T, T) -> bool): (r: seq<T>)
    ensures |r| == |s|
  {
    if s == [] then [] else Insert(StableSort(s[..|s| - 1], less), s[|s| - 1], less)
  }

  lemma {:induction false} InsertAt<T>(s: seq<T>, x: T, j: nat, less: (T, T) -> bool)
    requires j <= |s|
    requires forall k :: j <= k < |s| ==> less(x, s[k])
    ensures Insert(s, x, less) == Insert(s[..j], x, less) + s[j..]
  {
    if j == |s| {
      assert s[..j] == s && s[j..] == [];
    } else {
      var n := |s| - 1;
      InsertAt(s[..n], x, j, less);
      assert s[..n][..j] == s[..j];
      assert s[j..] == s[..n][j..] + [s[n]];
    }
  }

  /** Swaps element `i` left to its place among the first `i` elements. */
  method InsertInPlace<T>(list: array<T>, i: nat, less: (T, T) -> bool)
    requires i < list.Length
    modifies list
    ensures list[..i + 1] == Insert(old(list[..i]), old(list[i]), less)
    ensures list[i + 1..] == old(list[i + 1..])
  {
    hide Insert;
    ghost var front, x, rest := list[..i], list[i], list[i + 1..];
    var j := i;
    assert list[..] == Moved(front, x, rest, i);
    while j > 0 && less(list[j], list[j - 1])
      invariant 0 <= j <= i
      invariant list[..] == Moved(front, x, rest, j)
      invariant forall k :: j <= k < i ==> less(x, front[k])
    {
      MovedAt(front, x, rest, j);
      ghost var before := list[..];
      assert list[j] == before[j] && list[j - 1] == before[j - 1];
      list[j], list[j - 1] := list[j - 1], list[j];
      assert list[..] == before[j := before[j - 1]][j - 1 := before[j]];
      j := j - 1;
    }
    MovedAt(front, x, rest, j);
    assert j > 0 ==> list[j] == list[..][j] && list[j - 1] == list[..][j - 1];
    InsertAt(front, x, j, less);
    StopsThere(front, x, j, less);
    assert list[..i + 1] == list[..][..i + 1] && list[i + 1..] == list[..][i + 1..];
  }

  /** `x` after it moved left to position `j` of `front`. */
  ghost function Moved<T>(front: seq<T>, x: T, rest: seq<T>, j: nat): seq<T>
    requires j <= |front|
  {
    front[..j] + [x] + front[j..] + rest
  }

  lemma MovedAt<T>(front: seq<T>, x: T, rest: seq<T>, j: nat)
    requires j <= |front|
    ensures var s := Moved(front, x, rest, j);
            && |s| == |front| + 1 + |rest| && s[j] == x
            && s[..|front| + 1] == front[..j] + [x] + front[j..] && s[|front| + 1..] == rest
            && (j > 0 ==> s[j - 1] == front[j - 1] && Moved(front, x, rest, j - 1) == s[j := front[j - 1]][j - 1 := x])
  {
    var s := Moved(front, x, rest, j);
    assert s[..|front| + 1] == front[..j] + [x] + front[j..];
    assert s[|front| + 1..] == rest;
    if j > 0 {
      assert Moved(front, x, rest, j - 1) == s[j := front[j - 1]][j - 1 := x];
    }
  }

  /** An element goes no further left than one it does not beat. */
  lemma StopsThere<T>(s: seq<T>, x: T, j: nat, less: (T, T) -> bool)
    requires j <= |s| && (j > 0 ==> !less(x, s[j - 1]))
    ensures Insert(s[..j], x, less) == s[..j] + [x]
  {
  }

  lemma NothingSorted<T>(less: (T, T) -> bool)
    ensures StableSort([], less) == []
  {
  }

  lemma OneMoreSorted<T>(s: seq<T>, i: nat, less: (T, T) -> bool)
    requires i < |s|
    ensures StableSort(s[..i + 1], less) == Insert(StableSort(s[..i], less), s[i], less)
  {
    hide Insert;
    assert s[..i + 1][..i] == s[..i];
  }

  /** sort.SliceStable. One block is sorted by insertion, under any comparator. Merging more of
      them gives some rearrangement, the stable sort only if the comparator is consistent:
      StableUnique says that every way of sorting stably then gives the same. */
  method SliceStable<T(!new)>(list: array<T>, less: (T, T) -> bool)
    modifies list
    ensures multiset(list[..]) == multiset(old(list[..]))
    ensures list.Length <= 20 || Consistent(old(list[..]), less) ==> list[..] == StableSort(old(list[..]), less)
  {
    hide Insert, StableSort, Consistent;
    ghost var was := list[..];
    NothingSorted(less);
    assert list[..0] == was[..0] == [];
    var i := 0;
    while i < list.Length
      invariant 0 <= i <= list.Length
      invariant list[..i] == StableSort(was[..i], less)
      invariant list[i..] == was[i..]
    {
      assert list[i] == list[i..][0] == was[i];
      InsertInPlace(list, i, less);
      OneMoreSorted(was, i, less);
      assert list[i + 1..] == was[i..][1..];
      i := i + 1;
    }
    assert was[..i] == was && list[..i] == list[..];
    SortPermutes(was, less);
  }

  /** Some sorted rearrangement of `s`: what sort.Slice returns, `order` being its choice. */
  function AnySort<T(==)>(s: seq<T>, less: (T, T) -> bool, order: seq<T>): (r: seq<T>)
    ensures |r| == |s|
  {
    assert |order| == |multiset(order)| && |s| == |multiset(s)|;
    if multiset(order) == multiset(s) && (forall i, j :: 0 <= i < j < |order| ==> !less(order[j], order[i]))
    then order
    else StableSort(s, less)
  }

  lemma {:induction false} InsertPermutes<T>(s: seq<T>, x: T, less: (T, T) -> bool)
    ensures multiset(Insert(s, x, less)) == multiset(s) + multiset{x}
  {
    if s != [] && less(x, s[|s| - 1]) {
      var n := |s| - 1;
      InsertPermutes(s[..n], x, less);
      assert s == s[..n] + [s[n]];
    }
  }

  lemma {:induction false} InsertSorts<T(!new)>(s: seq<T>, x: T, less: (T, T) -> bool)
    requires Consistent(s + [x], less) && SortedBy(s, less)
    ensures SortedBy(Insert(s, x, less), less)
  {
    if s != [] && less(x, s[|s| - 1]) {
      var n := |s| - 1;
      FewerConsistent(s, x, less);
      InsertSorts(s[..n], x, less);
      InsertPermutes(s[..n], x, less);
      NotBefore(s, x, Insert(s[..n], x, less), less);
      SortedSnoc(Insert(s[..n], x, less), s[n], less);
    } else if s != [] {
      BeatsNone(s, x, less);
      SortedSnoc(s, x, less);
    }
  }

  lemma FewerConsistent<T(!new)>(s: seq<T>, x: T, less: (T, T) -> bool)
    requires s != [] && Consistent(s + [x], less) && SortedBy(s, less)
    ensures Consistent(s[..|s| - 1] + [x], less) && SortedBy(s[..|s| - 1], less)
  {
    assert forall y :: y in s[..|s| - 1] + [x] ==> y in s + [x];
  }

  lemma SortedSnoc<T(!new)>(r: seq<T>, x: T, less: (T, T) -> bool)
    requires SortedBy(r, less) && forall y :: y in r ==> !less(x, y)
    ensures SortedBy(r + [x], less)
  {
  }

  /** What moves left past the last element leaves it last. */
  lemma NotBefore<T(!new)>(s: seq<T>, x: T, r: seq<T>, less: (T, T) -> bool)
    requires s != [] && less(x, s[|s| - 1]) && SortedBy(s, less) && Consistent(s + [x], less)
    requires multiset(r) == multiset(s[..|s| - 1]) + multiset{x}
    ensures forall y :: y in r ==> !less(s[|s| - 1], y)
  {
    var n := |s| - 1;
    assert x in s + [x] && s[n] in s + [x];
    forall y | y in r ensures !less(s[n], y) {
      assert y in multiset(r);
      assert y in s[..n] || y == x;
    }
  }

  lemma BeatsNone<T(!new)>(s: seq<T>, x: T, less: (T, T) -> bool)
    requires s != [] && !less(x, s[|s| - 1]) && SortedBy(s, less) && Consistent(s + [x], less)
    ensures forall y :: y in s ==> !less(x, y)
  {
    assert x in s + [x] && s[|s| - 1] in s + [x];
    forall y | y in s ensures !less(x, y) {
      var i :| 0 <= i < |s| && s[i] == y;
      assert y in s + [x] && (i == |s| - 1 || !less(s[|s| - 1], s[i]));
    }
  }

  lemma {:induction false} SortPermutes<T>(s: seq<T>, less: (T, T) -> bool)
    ensures multiset(StableSort(s, less)) == multiset(s)
  {
    hide Insert;
    if s != [] {
      var n := |s| - 1;
      var r := StableSort(s[..n], less);
      SortPermutes(s[..n], less);
      InsertPermutes(r, s[n], less);
      assert StableSort(s, less) == Insert(r, s[n], less);
      assert s == s[..n] + [s[n]];
    }
  }

  lemma {:induction false} SortSorts<T(!new)>(s: seq<T>, less: (T, T) -> bool)
    requires Consistent(s, less)
    ensures SortedBy(StableSort(s, less), less)
  {
    if s != [] {
      var n := |s| - 1;
      var r := StableSort(s[..n], less);
      SortSorts(s[..n], less);
      SortPermutes(s[..n], less);
      forall y | y in r + [s[n]] ensures y in s {
        assert y in multiset(r) || y == s[n];
      }
      InsertSorts(r, s[n], less);
    }
  }

  /** Under a consistent comparator the results sort.Slice may give are exactly the sorted rearrangements. */
  lemma AnySortExactly<T(!new)>(s: seq<T>, less: (T, T) -> bool, order: seq<T>)
    requires Consistent(s, less)
    ensures var r := AnySort(s, less, order); multiset(r) == multiset(s) && SortedBy(r, less)
    ensures multiset(order) == multiset(s) && SortedBy(order, less) ==> AnySort(s, less, order) == order
  {
    SortPermutes(s, less);
    SortSorts(s, less);
  }

  /** The elements of `s` that tie with `x`, in order. */
  ghost function Ties<T(!new)>(s: seq<T>, x: T, less: (T, T) -> bool): seq<T> {
    if s == [] then []
    else
      var n := |s| - 1;
      Ties(s[..n], x, less) + if !less(s[n], x) && !less(x, s[n]) then [s[n]] else []
  }

  lemma {:induction false} InsertStable<T(!new)>(s: seq<T>, y: T, x: T, less: (T, T) -> bool)
    requires Consistent(s + [y, x], less)
    ensures Ties(Insert(s, y, less), x, less) == Ties(s + [y], x, less)
  {
    assert (s + [y])[..|s|] == s;
    if s != [] && less(y, s[|s| - 1]) {
      var n := |s| - 1;
      assert forall z :: z in s[..n] + [y, x] ==> z in s + [y, x];
      InsertStable(s[..n], y, x, less);
      var r := Insert(s[..n], y, less);
      assert (r + [s[n]])[..|r|] == r;
      assert (s[..n] + [y])[..n] == s[..n];
      assert s[n] in s + [y, x] && y in s + [y, x] && x in s + [y, x];
      assert !(!less(y, x) && !less(x, y) && !less(s[n], x) && !less(x, s[n]));
    }
  }

  /** Elements that tie keep their relative order. */
  lemma {:induction false} SortStable<T(!new)>(s: seq<T>, x: T, less: (T, T) -> bool)
    requires Consistent(s + [x], less)
    ensures Ties(StableSort(s, less), x, less) == Ties(s, x, less)
  {
    if s != [] {
      var n := |s| - 1;
      var r := StableSort(s[..n], less);
      assert forall z :: z in s[..n] + [x] ==> z in s + [x];
      SortStable(s[..n], x, less);
      SortPermutes(s[..n], less);
      forall z | z in r + [s[n], x] ensures z in s + [x] {
        assert z in multiset(r) || z == s[n] || z == x;
      }
      InsertStable(r, s[n], x, less);
      assert (r + [s[n]])[..|r|] == r;
    }
  }

  lemma LastIsSame<T(!new)>(a: seq<T>, b: seq<T>, less: (T, T) -> bool)
    requires multiset(a) == multiset(b) && a != [] && b != []
    requires SortedBy(a, less) && SortedBy(b, less) && NoTies(a, less)
    ensures a[|a| - 1] == b[|b| - 1]
  {
    var x, y := a[|a| - 1], b[|b| - 1];
    assert x in multiset(b) && y in multiset(a);
    var i :| 0 <= i < |b| && b[i] == x;
    var j :| 0 <= j < |a| && a[j] == y;
  }

  lemma DropLast<T(!new)>(s: seq<T>, less: (T, T) -> bool)
    requires s != [] && SortedBy(s, less) && NoTies(s, less)
    ensures var t := s[..|s| - 1]; SortedBy(t, less) && NoTies(t, less)
  {
    assert forall x :: x in s[..|s| - 1] ==> x in s;
  }

  lemma MultisetDropLast<T(!new)>(s: seq<T>)
    requires s != []
    ensures multiset(s[..|s| - 1]) == multiset(s) - multiset{s[|s| - 1]}
  {
    assert s == s[..|s| - 1] + [s[|s| - 1]];
  }

  lemma SameNoTies<T(!new)>(a: seq<T>, b: seq<T>, less: (T, T) -> bool)
    requires multiset(a) == multiset(b) && NoTies(a, less)
    ensures NoTies(b, less)
  {
    forall x | x in b ensures x in a {
      assert x in multiset(a);
    }
  }

  lemma {:induction false} Twice<T>(s: seq<T>, x: T) returns (i: nat, j: nat)
    requires multiset(s)[x] >= 2
    ensures i < j < |s| && s[i] == s[j] == x
  {
    var n := |s| - 1;
    assert s == s[..n] + [s[n]];
    if s[n] == x {
      j := n;
      assert x in multiset(s[..n]);
      i :| 0 <= i < n && s[i] == x;
    } else {
      i, j := Twice(s[..n], x);
    }
  }

  lemma SameLength<T>(a: seq<T>, b: seq<T>)
    requires multiset(a) == multiset(b)
    ensures |a| == |b|
  {
    assert |a| == |multiset(a)| && |b| == |multiset(b)|;
  }

  /** Without ties there is only one sorted rearrangement. */
  lemma {:induction false} SortedUnique<T(!new)>(a: seq<T>, b: seq<T>, less: (T, T) -> bool)
    requires multiset(a) == multiset(b)
    requires SortedBy(a, less) && SortedBy(b, less) && NoTies(a, less)
    ensures a == b
  {
    hide SortedBy, NoTies;
    SameLength(a, b);
    if a != [] {
      LastIsSame(a, b, less);
      SameNoTies(a, b, less);
      DropLast(a, less);
      DropLast(b, less);
      MultisetDropLast(a);
      MultisetDropLast(b);
      SortedUnique(a[..|a| - 1], b[..|b| - 1], less);
      SameUpToLast(a, b);
    }
  }

  lemma SameUpToLast<T>(a: seq<T>, b: seq<T>)
    requires |a| == |b| > 0 && a[..|a| - 1] == b[..|b| - 1] && a[|a| - 1] == b[|b| - 1]
    ensures a == b
  {
    assert a == a[..|a| - 1] + [a[|a| - 1]] && b == b[..|b| - 1] + [b[|b| - 1]];
  }

  /** The same elements, and those that tie in the same order. */
  ghost predicate SameTies<T(!new)>(a: seq<T>, b: seq<T>, less: (T, T) -> bool) {
    multiset(a) == multiset(b) && forall v :: v in a ==> Ties(a, v, less) == Ties(b, v, less)
  }

  lemma LastTies<T(!new)>(a: seq<T>, b: seq<T>, less: (T, T) -> bool)
    requires a != [] && b != [] && SameTies(a, b, less)
    requires SortedBy(a, less) && SortedBy(b, less) && Consistent(a, less)
    ensures a[|a| - 1] == b[|b| - 1]
  {
    var x, y := a[|a| - 1], b[|b| - 1];
    assert x in multiset(b) && y in multiset(a);
    var i :| 0 <= i < |b| && b[i] == x;
    var j :| 0 <= j < |a| && a[j] == y;
    assert !less(x, x) && !less(y, y);
    assert !less(x, y) && !less(y, x);
    assert Ties(a, x, less)[|Ties(a, x, less)| - 1] == x;
    assert Ties(b, x, less)[|Ties(b, x, less)| - 1] == y;
  }

  lemma SameBefore<T>(a: seq<T>, b: seq<T>, rest: seq<T>)
    requires a + rest == b + rest
    ensures a == b
  {
    assert |a| == |b|;
    assert a == (a + rest)[..|a|] && b == (b + rest)[..|b|];
  }

  lemma DropLastTies<T(!new)>(a: seq<T>, b: seq<T>, less: (T, T) -> bool)
    requires a != [] && b != [] && SameTies(a, b, less) && a[|a| - 1] == b[|b| - 1]
    ensures SameTies(a[..|a| - 1], b[..|b| - 1], less)
  {
    MultisetDropLast(a);
    MultisetDropLast(b);
    var m, n := |a| - 1, |b| - 1;
    forall v | v in a[..m] ensures Ties(a[..m], v, less) == Ties(b[..n], v, less) {
      assert v in a;
      var more := if !less(a[m], v) && !less(v, a[m]) then [a[m]] else [];
      assert Ties(a, v, less) == Ties(a[..m], v, less) + more;
      assert Ties(b, v, less) == Ties(b[..n], v, less) + more;
      SameBefore(Ties(a[..m], v, less), Ties(b[..n], v, less), more);
    }
  }

  /** Under a consistent comparator there is only one stable sort. */
  lemma {:induction false} StableUnique<T(!new)>(a: seq<T>, b: seq<T>, less: (T, T) -> bool)
    requires Consistent(a, less) && SortedBy(a, less) && SortedBy(b, less) && SameTies(a, b, less)
    ensures a == b
  {
    SameLength(a, b);
    if a != [] {
      LastTies(a, b, less);
      DropLastTies(a, b, less);
      DropLastSorted(a, less);
      DropLastSorted(b, less);
      StableUnique(a[..|a| - 1], b[..|b| - 1], less);
      SameUpToLast(a, b);
    }
  }

  lemma DropLastSorted<T(!new)>(s: seq<T>, less: (T, T) -> bool)
    requires s != [] && SortedBy(s, less)
    ensures SortedBy(s[..|s| - 1], less)
    ensures Consistent(s, less) ==> Consistent(s[..|s| - 1], less)
  {
    assert forall x :: x in s[..|s| - 1] ==> x in s;
  }

  function Map<S, T>(f: S -> T, s: seq<S>): (r: seq<T>)
    ensures |r| == |s|
  {
    seq(|s|, i requires 0 <= i < |s| => f(s[i]))
  }

  lemma {:induction false} InsertCommutes<S(!new), T>(s: seq<S>, x: S, f: S -> T,
                                                      less: (S, S) -> bool, less': (T, T) -> bool)
    requires forall y :: y in s ==> less(x, y) == less'(f(x), f(y))
    ensures Insert(Map(f, s), f(x), less') == Map(f, Insert(s, x, less))
  {
    if s == [] {
      assert Map(f, s) == [] && [] + [f(x)] == Map(f, [x]);
    } else {
      var n := |s| - 1;
      assert Map(f, s)[..n] == Map(f, s[..n]);
      if less(x, s[n]) {
        InsertCommutes(s[..n], x, f, less, less');
      }
    }
  }

  lemma {:induction false} SortCommutes<S(!new), T>(s: seq<S>, f: S -> T, less: (S, S) -> bool, less': (T, T) -> bool)
    requires forall x, y :: x in s && y in s ==> less(x, y) == less'(f(x), f(y))
    ensures StableSort(Map(f, s), less') == Map(f, StableSort(s, less))
  {
    if s != [] {
      var n := |s| - 1;
      assert Map(f, s)[..n] == Map(f, s[..n]);
      SortCommutes(s[..n], f, less, less');
      SortPermutes(s[..n], less);
      forall y | y in StableSort(s[..n], less) ensures y in s {
        assert y in multiset(s[..n]);
      }
      InsertCommutes(StableSort(s[..n], less), s[n], f, less, less');
    }
  }
}
