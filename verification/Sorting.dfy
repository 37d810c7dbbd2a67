/** Sorting by a strict order; the result does not depend on the order of the input. */
module Sorting {

  /** Points the verifier at three elements whose order is to be chained. */
  predicate Chain<T>(x: T, y: T, z: T) {
    true
  }

  /** `less` is irreflexive and transitive, and orders any two different elements of `s`. */
  ghost predicate OrdersAll<T(!new)>(less: (T, T) -> bool, s: multiset<T>) {
    && (forall x: T :: !less(x, x))
    && (forall x: T, y: T, z: T {:trigger Chain(x, y, z)} ::
          Chain(x, y, z) && less(x, y) && less(y, z) ==> less(x, z))
    && (forall x: T, y: T {:trigger less(x, y)} :: x in s && y in s && x != y ==> less(x, y) || less(y, x))
  }

  predicate Sorted<T(==)>(less: (T, T) -> bool, s: seq<T>) {
    forall i, j :: 0 <= i < j < |s| ==> less(s[i], s[j]) || s[i] == s[j]
  }

  function Insert<T(!new)>(less: (T, T) -> bool, x: T, s: seq<T>): seq<T> {
    if s == [] || less(x, s[0]) then [x] + s else [s[0]] + Insert(less, x, s[1..])
  }

  function Sort<T(!new)>(less: (T, T) -> bool, s: seq<T>): seq<T> {
    if s == [] then [] else Insert(less, s[0], Sort(less, s[1..]))
  }

  lemma {:induction false} InsertKeeps<T(!new)>(less: (T, T) -> bool, x: T, s: seq<T>)
    ensures multiset(Insert(less, x, s)) == multiset(s) + multiset{x}
    ensures |Insert(less, x, s)| == |s| + 1
  {
    if s != [] {
      assert s == [s[0]] + s[1..];
      if !less(x, s[0]) {
        InsertKeeps(less, x, s[1..]);
      }
    }
  }

  /** Everything in `s` comes after `x` or equals it. */
  predicate AtLeast<T(==)>(less: (T, T) -> bool, x: T, s: seq<T>) {
    forall j :: 0 <= j < |s| ==> less(x, s[j]) || x == s[j]
  }

  lemma {:induction false} InsertAtLeast<T(!new)>(less: (T, T) -> bool, low: T, x: T, s: seq<T>)
    requires AtLeast(less, low, s) && (less(low, x) || low == x)
    ensures AtLeast(less, low, Insert(less, x, s))
  {
    if s != [] && !less(x, s[0]) {
      InsertAtLeast(less, low, x, s[1..]);
    }
  }

  lemma PrependSorted<T(!new)>(less: (T, T) -> bool, x: T, s: seq<T>)
    requires Sorted(less, s) && AtLeast(less, x, s)
    ensures Sorted(less, [x] + s)
  {
  }

  lemma {:induction false} InsertSorts<T(!new)>(less: (T, T) -> bool, x: T, s: seq<T>)
    requires OrdersAll(less, multiset(s) + multiset{x}) && Sorted(less, s)
    ensures Sorted(less, Insert(less, x, s))
  {
    if s != [] {
      assert s == [s[0]] + s[1..];
      if less(x, s[0]) {
        forall j | 0 <= j < |s| ensures less(x, s[j]) || x == s[j] {
          assert Chain(x, s[0], s[j]);
        }
        PrependSorted(less, x, s);
      } else {
        assert multiset(s) == multiset(s[1..]) + multiset{s[0]};
        InsertSorts(less, x, s[1..]);
        assert s[0] in multiset(s) && !less(x, s[0]);
        InsertAtLeast(less, s[0], x, s[1..]);
        PrependSorted(less, s[0], Insert(less, x, s[1..]));
      }
    }
  }

  /** Sorting keeps the elements and puts them in order. */
  lemma {:induction false} SortSorts<T(!new)>(less: (T, T) -> bool, s: seq<T>)
    requires OrdersAll(less, multiset(s))
    ensures multiset(Sort(less, s)) == multiset(s) && |Sort(less, s)| == |s|
    ensures Sorted(less, Sort(less, s))
  {
    if s != [] {
      assert s == [s[0]] + s[1..];
      assert multiset(s) == multiset(s[1..]) + multiset{s[0]};
      SortSorts(less, s[1..]);
      InsertKeeps(less, s[0], Sort(less, s[1..]));
      InsertSorts(less, s[0], Sort(less, s[1..]));
    }
  }

  lemma SameHead<T(!new)>(less: (T, T) -> bool, a: seq<T>, b: seq<T>)
    requires multiset(a) == multiset(b) && OrdersAll(less, multiset(a))
    requires Sorted(less, a) && Sorted(less, b) && a != [] && b != []
    ensures a[0] == b[0]
  {
    assert a[0] in multiset(b) && b[0] in multiset(a);
    var i :| 0 <= i < |b| && b[i] == a[0];
    var j :| 0 <= j < |a| && a[j] == b[0];
    assert Chain(a[0], b[0], a[0]);
  }

  lemma TailElements<T>(a: seq<T>)
    requires a != []
    ensures multiset(a[1..]) == multiset(a) - multiset{a[0]}
  {
    assert a == [a[0]] + a[1..];
  }

  /** Two sorted arrangements of the same elements are equal. */
  lemma {:induction false} SortedIsUnique<T(!new)>(less: (T, T) -> bool, a: seq<T>, b: seq<T>)
    requires multiset(a) == multiset(b) && OrdersAll(less, multiset(a))
    requires Sorted(less, a) && Sorted(less, b)
    ensures a == b
    decreases |a|
  {
    if a == [] {
      assert |b| == |multiset(b)| == 0;
    } else {
      assert b != [] by {
        assert a[0] in multiset(b);
      }
      SameHead(less, a, b);
      TailElements(a);
      TailElements(b);
      assert multiset(a[1..]) == multiset(b[1..]);
      SortedIsUnique(less, a[1..], b[1..]);
    }
  }

  /** The sorted result depends only on which elements there are, not on the order they came in. */
  lemma SortIgnoresOrder<T(!new)>(less: (T, T) -> bool, a: seq<T>, b: seq<T>)
    requires multiset(a) == multiset(b) && OrdersAll(less, multiset(a))
    ensures Sort(less, a) == Sort(less, b)
  {
    SortSorts(less, a);
    SortSorts(less, b);
    SortedIsUnique(less, Sort(less, a), Sort(less, b));
  }

  // ------------------------------------------------------------- strict sequences

  ghost predicate StrictOrder<T(!new)>(less: (T, T) -> bool) {
    && (forall x: T :: !less(x, x))
    && (forall x: T, y: T, z: T {:trigger Chain(x, y, z)} ::
          Chain(x, y, z) && less(x, y) && less(y, z) ==> less(x, z))
  }

  predicate Strict<T>(less: (T, T) -> bool, s: seq<T>) {
    forall i, j :: 0 <= i < j < |s| ==> less(s[i], s[j])
  }

  lemma TwiceMeansTwo<T>(s: seq<T>, i: nat, j: nat)
    requires i < j < |s| && s[i] == s[j]
    ensures multiset(s)[s[i]] >= 2
  {
    assert s == s[..i] + [s[i]] + s[i + 1..j] + [s[j]] + s[j + 1..];
  }

  /** A sorted sequence without duplicates is strictly sorted. */
  lemma SortedIsStrict<T(!new)>(less: (T, T) -> bool, s: seq<T>)
    requires Sorted(less, s) && forall x :: multiset(s)[x] <= 1
    ensures Strict(less, s)
  {
    forall i, j | 0 <= i < j < |s| ensures less(s[i], s[j]) {
      if s[i] == s[j] {
        TwiceMeansTwo(s, i, j);
        assert false;
      }
    }
  }

  lemma SameElements<T>(a: seq<T>, b: seq<T>, x: T)
    requires multiset(a) == multiset(b)
    ensures x in a <==> x in b
  {
    assert x in a <==> x in multiset(a);
    assert x in b <==> x in multiset(b);
  }

  /** What stands in both sequences up to the k-th place of the first: they agree there exactly when
      whatever only one of them has comes after that place. */
  lemma SamePrefixExactly<T(!new)>(less: (T, T) -> bool, a: seq<T>, b: seq<T>, k: nat)
    requires StrictOrder(less) && Strict(less, a) && Strict(less, b) && 0 < k <= |a|
    ensures (k <= |b| && a[..k] == b[..k]) <==> forall d :: (d in a) != (d in b) ==> less(a[k - 1], d)
  {
    if k <= |b| && a[..k] == b[..k] {
      forall d | (d in a) != (d in b) ensures less(a[k - 1], d) {
        OnlyOneComesLater(less, a, b, k, d);
      }
    }
    if forall d :: (d in a) != (d in b) ==> less(a[k - 1], d) {
      PrefixAgrees(less, a, b, k, k);
    }
  }

  lemma OnlyOneComesLater<T(!new)>(less: (T, T) -> bool, a: seq<T>, b: seq<T>, k: nat, d: T)
    requires Strict(less, a) && Strict(less, b) && 0 < k <= |a| && k <= |b| && a[..k] == b[..k]
    requires (d in a) != (d in b)
    ensures less(a[k - 1], d)
  {
    assert forall m :: 0 <= m < k ==> a[m] == a[..k][m] && b[m] == b[..k][m];
    if d in a {
      var i :| 0 <= i < |a| && a[i] == d;
    } else {
      var i :| 0 <= i < |b| && b[i] == d;
    }
  }

  lemma {:induction false} PrefixAgrees<T(!new)>(less: (T, T) -> bool, a: seq<T>, b: seq<T>, k: nat, n: nat)
    requires StrictOrder(less) && Strict(less, a) && Strict(less, b) && 0 < n <= k <= |a|
    requires forall d :: (d in a) != (d in b) ==> less(a[k - 1], d)
    ensures n <= |b| && forall i :: 0 <= i < n ==> a[i] == b[i]
  {
    if n > 1 {
      PrefixAgrees(less, a, b, k, n - 1);
    }
    var i := n - 1;
    var j := FoundInBoth(less, a, b, k, i);
    NothingBefore(less, a, b, k, i);
  }

  /** An element up to place k of the first is in the second, no earlier than its own place. */
  lemma FoundInBoth<T(!new)>(less: (T, T) -> bool, a: seq<T>, b: seq<T>, k: nat, i: nat) returns (j: nat)
    requires StrictOrder(less) && Strict(less, a) && i < k <= |a|
    requires forall d :: (d in a) != (d in b) ==> less(a[k - 1], d)
    requires i <= |b| && forall m :: 0 <= m < i ==> a[m] == b[m]
    ensures i <= j < |b| && b[j] == a[i]
  {
    if i < k - 1 {
      Asymmetric(less, a[i], a[k - 1]);
    }
    assert a[i] in b;
    assert forall m :: 0 <= m < i ==> less(b[m], a[i]);
    j :| 0 <= j < |b| && b[j] == a[i];
  }

  lemma Asymmetric<T(!new)>(less: (T, T) -> bool, x: T, y: T)
    requires StrictOrder(less)
    ensures !(less(x, y) && less(y, x))
  {
    assert Chain(x, y, x);
  }

  /** The i-th element of the second does not come before that of the first. */
  lemma NothingBefore<T(!new)>(less: (T, T) -> bool, a: seq<T>, b: seq<T>, k: nat, i: nat)
    requires StrictOrder(less) && Strict(less, a) && Strict(less, b) && i < k <= |a| && i < |b|
    requires forall d :: (d in a) != (d in b) ==> less(a[k - 1], d)
    requires forall m :: 0 <= m < i ==> a[m] == b[m]
    ensures !less(b[i], a[i])
  {
    if b[i] in a {
      forall m | 0 <= m < i ensures a[m] != b[i] {
        assert less(b[m], b[i]);
      }
      var m :| 0 <= m < |a| && a[m] == b[i];
      if i < m {
        Asymmetric(less, a[i], a[m]);
      }
    } else {
      assert Chain(a[k - 1], b[i], a[i]);
      if i < k - 1 {
        Asymmetric(less, a[i], a[k - 1]);
      }
    }
  }

  /** Two strictly sorted arrangements of the same elements are equal. */
  lemma StrictIsUnique<T(!new)>(less: (T, T) -> bool, a: seq<T>, b: seq<T>)
    requires StrictOrder(less) && Strict(less, a) && Strict(less, b) && multiset(a) == multiset(b)
    ensures a == b
  {
    assert |a| == |multiset(a)| == |multiset(b)| == |b|;
    forall d ensures d in a <==> d in b {
      SameElements(a, b, d);
    }
    if a != [] {
      PrefixAgrees(less, a, b, |a|, |a|);
    }
  }
}
