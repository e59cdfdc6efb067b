/** The two `std::sort` calls of the scheduler (by arrival time before the run,
    by label before the report) with their comparators, and the lexicographic
    order that `std::string::operator<` gives labels. `std::sort` is not
    stable, so only "sorted and a permutation" is promised; the insertion sort
    below is one of the admissible outcomes. */
module Sorting {

  /** `less` is a strict weak order in the sense `std::sort` demands of its
      comparator: asymmetric, and "not less" is transitive. */
  ghost predicate StrictWeakOrder<T(!new)>(less: (T, T) -> bool) {
    && (forall x, y :: less(x, y) ==> !less(y, x))
    && (forall x, y, z :: !less(y, x) && !less(z, y) ==> !less(z, x))
  }

  /** No element is `less` than one before it. */
  ghost predicate SortedBy<T>(s: seq<T>, less: (T, T) -> bool) {
    forall i, j :: 0 <= i < j < |s| ==> !less(s[j], s[i])
  }

  /** Sorts `a` in place by `less`: the result is ordered and a permutation. */
  method InsertionSort<T(!new)>(a: array<T>, less: (T, T) -> bool)
    requires StrictWeakOrder(less)
    modifies a
    ensures SortedBy(a[..], less)
    ensures multiset(a[..]) == old(multiset(a[..]))
  {
    for i := 0 to a.Length
      invariant SortedBy(a[..i], less)
      invariant multiset(a[..]) == old(multiset(a[..]))
    {
      Insert(a, i, less);
    }
    assert a[..a.Length] == a[..];
  }

  /** Moves `a[i]` down into the sorted prefix `a[..i]`, so that `a[..i+1]`
      is sorted; the array keeps its elements. */
  method Insert<T(!new)>(a: array<T>, i: int, less: (T, T) -> bool)
    requires StrictWeakOrder(less)
    requires 0 <= i < a.Length && SortedBy(a[..i], less)
    modifies a
    ensures SortedBy(a[..i + 1], less)
    ensures multiset(a[..]) == old(multiset(a[..]))
  {
    var j := i;
    Sinking(a[..], i, less);
    while j > 0 && less(a[j], a[j - 1])
      invariant 0 <= j <= i
      invariant SinkingAt(a[..], j, i, less)
      invariant multiset(a[..]) == old(multiset(a[..]))
    {
      ghost var s := a[..];
      a[j - 1], a[j] := a[j], a[j - 1];
      SinkStep(s, j, i, less);
      assert a[..] == s[j - 1 := s[j]][j := s[j - 1]];
      j := j - 1;
    }
    SinkDone(a[..], j, i, less);
  }

  /** While `s[j]` sinks through `s[..i+1]`: the other elements are in
      order, and nothing after position `j` is less than `s[j]`. */
  ghost predicate SinkingAt<T>(s: seq<T>, j: int, i: int, less: (T, T) -> bool)
    requires 0 <= j <= i < |s|
  {
    && (forall p, q :: 0 <= p < q <= i && p != j && q != j ==> !less(s[q], s[p]))
    && (forall q :: j < q <= i ==> !less(s[q], s[j]))
  }

  lemma Sinking<T>(s: seq<T>, i: int, less: (T, T) -> bool)
    requires 0 <= i < |s| && SortedBy(s[..i], less)
    ensures SinkingAt(s, i, i, less)
  {
    forall p, q | 0 <= p < q <= i && p != i && q != i
      ensures !less(s[q], s[p])
    {
      assert s[q] == s[..i][q] && s[p] == s[..i][p];
    }
  }

  /** Swapping `s[j]` below a greater neighbour moves the sinking position
      down by one. */
  lemma SinkStep<T(!new)>(s: seq<T>, j: int, i: int, less: (T, T) -> bool)
    requires StrictWeakOrder(less)
    requires 0 < j <= i < |s| && SinkingAt(s, j, i, less) && less(s[j], s[j - 1])
    ensures SinkingAt(s[j - 1 := s[j]][j := s[j - 1]], j - 1, i, less)
  {
  }

  /** Once `s[j]` is not less than its left neighbour, `s[..i+1]` is
      sorted. */
  lemma SinkDone<T(!new)>(s: seq<T>, j: int, i: int, less: (T, T) -> bool)
    requires StrictWeakOrder(less)
    requires 0 <= j <= i < |s| && SinkingAt(s, j, i, less)
    requires j == 0 || !less(s[j], s[j - 1])
    ensures SortedBy(s[..i + 1], less)
  {
  }

  /** `std::string` comparison: the first differing character decides, and a
      proper prefix is smaller. */
  predicate LexLess(a: string, b: string) {
    if |a| == 0 then |b| > 0
    else if |b| == 0 then false
    else if a[0] != b[0] then a[0] < b[0]
    else LexLess(a[1..], b[1..])
  }

  lemma {:induction false} LexLessAsymmetric(a: string, b: string)
    ensures LexLess(a, b) ==> !LexLess(b, a)
  {
    if |a| > 0 && |b| > 0 && a[0] == b[0] {
      LexLessAsymmetric(a[1..], b[1..]);
    }
  }

  lemma {:induction false} LexLessTotal(a: string, b: string)
    ensures a != b ==> LexLess(a, b) || LexLess(b, a)
  {
    if |a| > 0 && |b| > 0 && a[0] == b[0] {
      LexLessTotal(a[1..], b[1..]);
      if a[1..] == b[1..] {
        assert a == [a[0]] + a[1..] && b == [b[0]] + b[1..];
      }
    }
  }

  /** "Not less" is transitive on strings. */
  lemma {:induction false} LexNotLessTransitive(a: string, b: string, c: string)
    ensures !LexLess(b, a) && !LexLess(c, b) ==> !LexLess(c, a)
  {
    if |a| > 0 && |b| > 0 && |c| > 0 && a[0] == b[0] == c[0] {
      LexNotLessTransitive(a[1..], b[1..], c[1..]);
    }
  }
}
