/** Sorting as the application uses it: a stable sort by a caller's order, sorting
    by a key, and the byte-wise order of paths. */
module Ordering {

  /** A strict order by some key: elements with equal keys are not ordered. */
  ghost predicate WeakOrder<T(!new)>(less: (T, T) -> bool) {
    && (forall x, y :: less(x, y) ==> !less(y, x))
    && (forall x, y, z :: less(x, z) ==> less(x, y) || less(y, z))
  }

  /** No later element belongs before an earlier one. */
  ghost predicate Sorted<T>(less: (T, T) -> bool, s: seq<T>) {
    forall i, j :: 0 <= i < j < |s| ==> !less(s[j], s[i])
  }

  /** Every element is strictly before the later ones. */
  ghost predicate StrictlySorted<T>(less: (T, T) -> bool, s: seq<T>) {
    forall i, j :: 0 <= i < j < |s| ==> less(s[i], s[j])
  }

  function InsertLast<T>(less: (T, T) -> bool, s: seq<T>, x: T): (r: seq<T>)
    ensures |r| == |s| + 1
  {
    if s == [] || !less(x, s[|s| - 1]) then s + [x]
    else InsertLast(less, s[..|s| - 1], x) + [s[|s| - 1]]
  }

  /** The stable sort: equal elements keep their order. */
  function StableSort<T>(less: (T, T) -> bool, s: seq<T>): (r: seq<T>)
    ensures |r| == |s|
  {
    if s == [] then [] else InsertLast(less, StableSort(less, s[..|s| - 1]), s[|s| - 1])
  }

  lemma {:induction false} InsertLastPermutes<T>(less: (T, T) -> bool, s: seq<T>, x: T)
    ensures multiset(InsertLast(less, s, x)) == multiset(s) + multiset{x}
  {
    if s != [] && less(x, s[|s| - 1]) {
      InsertLastPermutes(less, s[..|s| - 1], x);
      assert s == s[..|s| - 1] + [s[|s| - 1]];
    }
  }

  lemma {:induction false} StableSortPermutes<T>(less: (T, T) -> bool, s: seq<T>)
    ensures multiset(StableSort(less, s)) == multiset(s)
  {
    if s != [] {
      StableSortPermutes(less, s[..|s| - 1]);
      InsertLastPermutes(less, StableSort(less, s[..|s| - 1]), s[|s| - 1]);
      assert s == s[..|s| - 1] + [s[|s| - 1]];
    }
  }

  lemma {:induction false} StableSortKeepsSorted<T>(less: (T, T) -> bool, s: seq<T>)
    requires Sorted(less, s)
    ensures StableSort(less, s) == s
  {
    if s != [] {
      StableSortKeepsSorted(less, s[..|s| - 1]);
      assert s == s[..|s| - 1] + [s[|s| - 1]];
    }
  }

  lemma {:induction false} InsertLastSorts<T(!new)>(less: (T, T) -> bool, s: seq<T>, x: T)
    requires WeakOrder(less) && Sorted(less, s)
    ensures Sorted(less, InsertLast(less, s, x))
  {
    if s != [] && less(x, s[|s| - 1]) {
      var last, rest := s[|s| - 1], s[..|s| - 1];
      InsertLastSorts(less, rest, x);
      InsertLastPermutes(less, rest, x);
      var r := InsertLast(less, rest, x);
      forall i | 0 <= i < |r| ensures !less(last, r[i]) {
        assert r[i] in multiset(r);
        assert r[i] == x || r[i] in rest;
      }
    } else {
      forall i | 0 <= i < |s| ensures !less(x, s[i]) {
        assert !less(s[|s| - 1], s[i]);
      }
    }
  }

  lemma {:induction false} StableSortSorts<T(!new)>(less: (T, T) -> bool, s: seq<T>)
    requires WeakOrder(less)
    ensures Sorted(less, StableSort(less, s))
  {
    if s != [] {
      StableSortSorts(less, s[..|s| - 1]);
      InsertLastSorts(less, StableSort(less, s[..|s| - 1]), s[|s| - 1]);
    }
  }

  lemma HeadsAgree<T(!new)>(less: (T, T) -> bool, s: seq<T>, t: seq<T>)
    requires WeakOrder(less) && StrictlySorted(less, s) && StrictlySorted(less, t)
    requires multiset(s) == multiset(t) && s != [] && t != []
    ensures s[0] == t[0]
  {
    assert s[0] in multiset(t) && t[0] in multiset(s);
    var i :| 0 <= i < |t| && t[i] == s[0];
    var j :| 0 <= j < |s| && s[j] == t[0];
  }

  lemma TailMultiset<T>(s: seq<T>)
    requires s != []
    ensures multiset(s[1..]) == multiset(s) - multiset{s[0]}
  {
    assert s == [s[0]] + s[1..];
  }

  /** A list has one strictly sorted arrangement. */
  lemma {:induction false} SortedArrangementIsUnique<T(!new)>(less: (T, T) -> bool, s: seq<T>, t: seq<T>)
    requires WeakOrder(less) && StrictlySorted(less, s) && StrictlySorted(less, t)
    requires multiset(s) == multiset(t)
    ensures s == t
  {
    hide WeakOrder;
    assert |s| == |multiset(s)| == |multiset(t)| == |t|;
    if s != [] {
      HeadsAgree(less, s, t);
      TailMultiset(s);
      TailMultiset(t);
      SortedArrangementIsUnique(less, s[1..], t[1..]);
      assert s == [s[0]] + s[1..] && t == [t[0]] + t[1..];
    }
  }

  // ---------------------------------------------------------------------
  // Sorting by a key
  // ---------------------------------------------------------------------

  ghost predicate DistinctKeys<T, K>(key: T -> K, s: seq<T>) {
    forall i, j :: 0 <= i < j < |s| ==> key(s[i]) != key(s[j])
  }

  /** The order decides between any two different keys. */
  ghost predicate Decides<T(!new), K>(less: (T, T) -> bool, key: T -> K) {
    forall x, y :: key(x) != key(y) ==> less(x, y) || less(y, x)
  }

  lemma OnceOnly<T, K>(key: T -> K, s: seq<T>, a: nat)
    requires a < |s| && DistinctKeys(key, s)
    ensures multiset(s)[s[a]] == 1
  {
    assert s == s[..a] + [s[a]] + s[a + 1..];
    assert multiset(s) == multiset(s[..a]) + multiset{s[a]} + multiset(s[a + 1..]);
    assert s[a] !in s[..a] && s[a] !in s[a + 1..];
  }

  lemma TwiceAtLeast<T>(s: seq<T>, i: nat, j: nat)
    requires i < j < |s| && s[i] == s[j]
    ensures multiset(s)[s[i]] >= 2
  {
    assert s == s[..i] + [s[i]] + s[i + 1..j] + [s[j]] + s[j + 1..];
    assert multiset(s) == multiset(s[..i]) + multiset{s[i]} + multiset(s[i + 1..j]) + multiset{s[j]} + multiset(s[j + 1..]);
  }

  lemma RearrangingKeepsDistinct<T, K>(key: T -> K, s: seq<T>, t: seq<T>)
    requires DistinctKeys(key, s) && multiset(s) == multiset(t)
    ensures DistinctKeys(key, t)
  {
    forall i, j | 0 <= i < j < |t| ensures key(t[i]) != key(t[j]) {
      if key(t[i]) == key(t[j]) {
        assert t[i] in multiset(s) && t[j] in multiset(s);
        var a :| 0 <= a < |s| && s[a] == t[i];
        var b :| 0 <= b < |s| && s[b] == t[j];
        assert a == b;
        OnceOnly(key, s, a);
        TwiceAtLeast(t, i, j);
      }
    }
  }

  /** Sorting a list of distinct keys sorts it strictly. */
  lemma StableSortIsStrict<T(!new), K>(less: (T, T) -> bool, key: T -> K, s: seq<T>)
    requires WeakOrder(less) && Decides(less, key) && DistinctKeys(key, s)
    ensures StrictlySorted(less, StableSort(less, s))
    ensures multiset(StableSort(less, s)) == multiset(s)
  {
    StableSortPermutes(less, s);
    StableSortSorts(less, s);
    var sorted := StableSort(less, s);
    RearrangingKeepsDistinct(key, s, sorted);
    forall i, j | 0 <= i < j < |sorted| ensures less(sorted[i], sorted[j]) {
      assert !less(sorted[j], sorted[i]);
    }
  }

  /** Two arrangements of distinct keys are sorted into the same list. */
  lemma ArrangementsSortAlike<T(!new), K>(less: (T, T) -> bool, key: T -> K, s: seq<T>, t: seq<T>)
    requires WeakOrder(less) && Decides(less, key) && DistinctKeys(key, s) && multiset(s) == multiset(t)
    ensures StableSort(less, s) == StableSort(less, t)
  {
    RearrangingKeepsDistinct(key, s, t);
    StableSortIsStrict(less, key, s);
    StableSortIsStrict(less, key, t);
    SortedArrangementIsUnique(less, StableSort(less, s), StableSort(less, t));
  }

  // ---------------------------------------------------------------------
  // Bytes
  // ---------------------------------------------------------------------

  type Byte = b: int | 0 <= b < 256
  type Bytes = seq<Byte>

  /** Byte-wise comparison: below, equal or above. */
  function CompareBytes(a: Bytes, b: Bytes): int {
    if a == [] && b == [] then 0
    else if a == [] then -1
    else if b == [] then 1
    else if a[0] < b[0] then -1
    else if a[0] > b[0] then 1
    else CompareBytes(a[1..], b[1..])
  }

  lemma {:induction false} CompareBytesDecides(a: Bytes, b: Bytes)
    ensures CompareBytes(a, b) == 0 <==> a == b
    ensures CompareBytes(a, b) < 0 <==> CompareBytes(b, a) > 0
    decreases |a|
  {
    if a != [] && b != [] && a[0] == b[0] {
      CompareBytesDecides(a[1..], b[1..]);
      assert a == [a[0]] + a[1..] && b == [b[0]] + b[1..];
    }
  }

  lemma {:induction false} CompareBytesSplits(a: Bytes, b: Bytes, c: Bytes)
    requires CompareBytes(a, c) < 0
    ensures CompareBytes(a, b) < 0 || CompareBytes(b, c) < 0
    decreases |a|
  {
    if a != [] && b != [] && a[0] == b[0] == c[0] {
      CompareBytesSplits(a[1..], b[1..], c[1..]);
    }
  }

  /** Behind what they share, the first is at its end or has the smaller byte. */
  ghost predicate ComesFirst(a: Bytes, b: Bytes, shared: nat) {
    && shared <= |a| && shared < |b| && (forall i :: 0 <= i < shared ==> a[i] == b[i])
    && (shared < |a| ==> a[shared] < b[shared])
  }

  lemma {:induction false} CompareBytesIsByteOrder(a: Bytes, b: Bytes)
    ensures CompareBytes(a, b) < 0 <==> exists shared :: ComesFirst(a, b, shared)
    decreases |a|
  {
    if a != [] && b != [] && a[0] == b[0] {
      CompareBytesIsByteOrder(a[1..], b[1..]);
      forall shared: nat | ComesFirst(a[1..], b[1..], shared) ensures ComesFirst(a, b, shared + 1) {
        forall i | 0 <= i < shared + 1 ensures a[i] == b[i] {
          assert i > 0 ==> a[i] == a[1..][i - 1] && b[i] == b[1..][i - 1];
        }
      }
      forall shared: nat | ComesFirst(a, b, shared) ensures shared > 0 && ComesFirst(a[1..], b[1..], shared - 1) {
      }
    } else if b != [] && (a == [] || a[0] < b[0]) {
      assert ComesFirst(a, b, 0);
    } else {
      forall shared: nat ensures !ComesFirst(a, b, shared) {
        if a != [] && b != [] && a[0] > b[0] && shared > 0 && shared <= |a| && shared < |b| {
          assert a[0] != b[0];
        }
      }
    }
  }
}
