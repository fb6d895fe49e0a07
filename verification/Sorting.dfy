/**
  Go's string order, and the stable sort the relay calls through its library: insertion from the
  left, so equal elements keep their order. `sort.Slice` promises less (any sorted permutation);
  `SortedPermutation` states that promise and `SortedUnique` says when it leaves no choice.
 */
module Sorting {

  // ── strings ─────────────────────────────────────────────────────────────────

  predicate Less(a: string, b: string) {
    b != "" && (a == "" || a[0] < b[0] || (a[0] == b[0] && Less(a[1..], b[1..])))
  }

  lemma {:induction false} LessTotal(a: string, b: string)
    ensures a == b || Less(a, b) || Less(b, a)
    ensures !(Less(a, b) && Less(b, a)) && !Less(a, a)
  {
    if a != "" {
      LessTotal(a[1..], a[1..]);
      if b != "" {
        assert a == [a[0]] + a[1..] && b == [b[0]] + b[1..];
        LessTotal(a[1..], b[1..]);
      }
    }
  }

  lemma {:induction false} LessTransitive(a: string, b: string, c: string)
    requires Less(a, b) && Less(b, c)
    ensures Less(a, c)
  {
    if a != "" && a[0] == b[0] && b[0] == c[0] {
      LessTransitive(a[1..], b[1..], c[1..]);
    }
  }

  // ── sorting by a strict weak order ──────────────────────────────────────────

  ghost predicate WeakOrder<T(!new)>(less: (T, T) -> bool) {
    && (forall x :: !less(x, x))
    && (forall x, y, z :: less(x, y) && less(y, z) ==> less(x, z))
    && (forall x, y, z :: less(x, z) ==> less(x, y) || less(y, z))
  }

  ghost predicate Sorted<T>(s: seq<T>, less: (T, T) -> bool) {
    forall i, j | 0 <= i < j < |s| :: !less(s[j], s[i])
  }

  ghost predicate SortedPermutation<T>(r: seq<T>, s: seq<T>, less: (T, T) -> bool) {
    Sorted(r, less) && multiset(r) == multiset(s)
  }

  /** Puts `x` behind every element that is not greater. */
  function Insert<T>(s: seq<T>, x: T, less: (T, T) -> bool): (r: seq<T>)
    ensures |r| == |s| + 1
  {
    if s == [] then [x]
    else if less(x, s[0]) then [x] + s
    else [s[0]] + Insert(s[1..], x, less)
  }

  function Sort<T>(s: seq<T>, less: (T, T) -> bool): (r: seq<T>)
    ensures |r| == |s|
  {
    if s == [] then [] else Insert(Sort(s[..|s| - 1], less), s[|s| - 1], less)
  }

  lemma {:induction false} InsertContents<T>(s: seq<T>, x: T, less: (T, T) -> bool)
    ensures multiset(Insert(s, x, less)) == multiset(s) + multiset{x}
  {
    if s != [] {
      assert s == [s[0]] + s[1..];
      if !less(x, s[0]) { InsertContents(s[1..], x, less); }
    }
  }

  lemma MultisetMember<T>(s: seq<T>, t: seq<T>, i: nat)
    requires multiset(s) == multiset(t) && i < |s|
    ensures exists j :: 0 <= j < |t| && t[j] == s[i]
  {
    assert s[i] in multiset(s);
    assert s[i] in t;
  }

  lemma {:induction false} InsertSorted<T(!new)>(s: seq<T>, x: T, less: (T, T) -> bool)
    requires WeakOrder(less) && Sorted(s, less)
    ensures Sorted(Insert(s, x, less), less)
  {
    if s != [] && !less(x, s[0]) {
      var r := Insert(s[1..], x, less);
      InsertSorted(s[1..], x, less);
      InsertContents(s[1..], x, less);
      forall j | 0 <= j < |r| ensures !less(r[j], s[0]) {
        assert r[j] in multiset(r);
        assert r[j] == x || r[j] in s[1..];
      }
    } else if s != [] {
      forall j | 0 <= j < |s| ensures !less(s[j], x) {
        assert j > 0 ==> !less(s[j], s[0]);
      }
    }
  }

  /** `Sort` is a sorted permutation of its argument. */
  lemma {:induction false} SortMeets<T(!new)>(s: seq<T>, less: (T, T) -> bool)
    requires WeakOrder(less)
    ensures SortedPermutation(Sort(s, less), s, less)
  {
    if s != [] {
      var t, x := s[..|s| - 1], s[|s| - 1];
      assert s == t + [x];
      SortMeets(t, less);
      InsertContents(Sort(t, less), x, less);
      InsertSorted(Sort(t, less), x, less);
    }
  }

  lemma {:induction false} InsertLast<T>(s: seq<T>, x: T, less: (T, T) -> bool)
    requires forall y | y in s :: !less(x, y)
    ensures Insert(s, x, less) == s + [x]
  {
    if s != [] {
      InsertLast(s[1..], x, less);
      assert s == [s[0]] + s[1..];
    }
  }

  lemma {:induction false} SortSorted<T>(s: seq<T>, less: (T, T) -> bool)
    requires Sorted(s, less)
    ensures Sort(s, less) == s
  {
    if s != [] {
      var t, x := s[..|s| - 1], s[|s| - 1];
      assert s == t + [x];
      SortSorted(t, less);
      InsertLast(t, x, less);
    }
  }

  lemma SortAppend<T>(s: seq<T>, x: T, less: (T, T) -> bool)
    ensures Sort(s + [x], less) == Insert(Sort(s, less), x, less)
  {
    assert (s + [x])[..|s|] == s;
  }

  // ── bounded lists ───────────────────────────────────────────────────────────

  function Take<T>(s: seq<T>, k: nat): seq<T> {
    if |s| <= k then s else s[..k]
  }

  /** Dropping the tail before an insertion loses nothing of the first k elements. */
  lemma {:induction false} InsertTake<T>(s: seq<T>, x: T, less: (T, T) -> bool, k: nat)
    ensures Take(Insert(Take(s, k), x, less), k) == Take(Insert(s, x, less), k)
  {
    if s == [] || k == 0 {
    } else if less(x, s[0]) {
      assert |s| > k ==> ([x] + s[..k])[..k] == ([x] + s)[..k];
    } else {
      InsertTake(s[1..], x, less, k - 1);
      assert Take(s, k) == [s[0]] + Take(s[1..], k - 1);
      InsertHead(s, x, less, k);
      InsertHead(Take(s, k), x, less, k);
    }
  }

  lemma InsertHead<T>(s: seq<T>, x: T, less: (T, T) -> bool, k: nat)
    requires s != [] && !less(x, s[0]) && k > 0
    ensures Take(Insert(s, x, less), k) == [s[0]] + Take(Insert(s[1..], x, less), k - 1)
  {
  }

  /** A strict order that tells the elements apart admits only one sorted permutation. */
  lemma {:induction false} SortedUnique<T>(a: seq<T>, b: seq<T>, less: (T, T) -> bool)
    requires Sorted(a, less) && Sorted(b, less) && multiset(a) == multiset(b)
    requires forall x, y | x in a && y in a && x != y :: less(x, y) || less(y, x)
    ensures a == b
  {
    assert |a| == |multiset(a)| == |b|;
    if a != [] {
      SameHead(a, b, less);
      SameTail(a, b);
      SortedUnique(a[1..], b[1..], less);
      assert a == [a[0]] + a[1..] && b == [b[0]] + b[1..];
    }
  }

  lemma SameHead<T>(a: seq<T>, b: seq<T>, less: (T, T) -> bool)
    requires Sorted(a, less) && Sorted(b, less) && multiset(a) == multiset(b) && a != [] && b != []
    requires forall x, y | x in a && y in a && x != y :: less(x, y) || less(y, x)
    ensures a[0] == b[0]
  {
    MultisetMember(a, b, 0);
    MultisetMember(b, a, 0);
    var i :| 0 <= i < |a| && a[i] == b[0];
    var j :| 0 <= j < |b| && b[j] == a[0];
  }

  lemma SameTail<T>(a: seq<T>, b: seq<T>)
    requires multiset(a) == multiset(b) && a != [] && b != [] && a[0] == b[0]
    ensures multiset(a[1..]) == multiset(b[1..])
    ensures forall x | x in a[1..] :: x in a
  {
    assert a == [a[0]] + a[1..] && b == [b[0]] + b[1..];
    assert multiset(a[1..]) == multiset(a) - multiset{a[0]};
  }

  // ── permutations of distinct elements ───────────────────────────────────────

  lemma {:induction false} OccursOnce<T>(a: seq<T>, x: T)
    requires forall i, j | 0 <= i < j < |a| :: a[i] != a[j]
    ensures multiset(a)[x] <= 1
  {
    if a != [] {
      assert a == a[..|a| - 1] + [a[|a| - 1]];
      OccursOnce(a[..|a| - 1], x);
    }
  }

  lemma TwiceCounts<T>(b: seq<T>, i: nat, j: nat)
    requires i < j < |b| && b[i] == b[j]
    ensures multiset(b)[b[i]] >= 2
  {
    assert b == b[..i] + [b[i]] + b[i + 1..j] + [b[j]] + b[j + 1..];
  }

  /** A permutation of elements with distinct keys has distinct keys. */
  lemma PermutationKeepsDistinct<T(!new)>(a: seq<T>, b: seq<T>, key: T -> string)
    requires multiset(a) == multiset(b)
    requires forall i, j | 0 <= i < j < |a| :: key(a[i]) != key(a[j])
    ensures forall i, j | 0 <= i < j < |b| :: key(b[i]) != key(b[j])
  {
    forall i, j | 0 <= i < j < |b| ensures key(b[i]) != key(b[j]) {
      OccursOnce(a, b[i]);
      if b[i] == b[j] { TwiceCounts(b, i, j); }
      MultisetMember(b, a, i);
      MultisetMember(b, a, j);
    }
  }

  lemma SubsetSize<T>(a: set<T>, b: set<T>)
    requires a <= b
    ensures |a| <= |b|
  {
    assert b == a + (b - a);
  }
}
