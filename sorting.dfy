/**
 * The comparator sorts of the listing page and the home page. `Array.prototype.sort`
 * is stable, and a comparator `(a, b) => k(a) - k(b)` orders by ascending `k`;
 * `(a, b) => k(b) - k(a)` is the same as ascending order of `-k`. So every sort
 * the pages perform is a stable sort by ascending `Key`, specified below as
 * insertion sort.
 */
module Sorting {
  import opened Types

  /** The four comparators the pages use. */
  datatype SortOrder = PriceAscending | PriceDescending | RateDescending | CountDescending

  /** The value a comparator subtracts, oriented so that ascending order is the order wanted. */
  function Key(o: SortOrder, p: Product): real {
    match o
    case PriceAscending => p.price
    case PriceDescending => -p.price
    case RateDescending => -p.rating.rate
    case CountDescending => -(p.rating.count as real)
  }

  predicate Sorted(o: SortOrder, s: seq<Product>) {
    forall i, j :: 0 <= i < j < |s| ==> Key(o, s[i]) <= Key(o, s[j])
  }

  /** Inserts `x` after every element whose key does not exceed its own (which keeps the sort stable). */
  function Insert(o: SortOrder, x: Product, s: seq<Product>): seq<Product>
    decreases |s|
  {
    if s == [] then [x]
    else if Key(o, s[|s| - 1]) > Key(o, x) then Insert(o, x, s[..|s| - 1]) + [s[|s| - 1]]
    else s + [x]
  }

  /** Stable insertion sort: the reference meaning of every in-place comparator sort here. */
  function InsertionSort(o: SortOrder, s: seq<Product>): seq<Product>
    decreases |s|
  {
    if s == [] then [] else Insert(o, s[|s| - 1], InsertionSort(o, s[..|s| - 1]))
  }

  lemma {:induction false} InsertPermutes(o: SortOrder, x: Product, s: seq<Product>)
    ensures multiset(Insert(o, x, s)) == multiset(s) + multiset{x}
    ensures |Insert(o, x, s)| == |s| + 1
    decreases |s|
  {
    if s != [] && Key(o, s[|s| - 1]) > Key(o, x) {
      InsertPermutes(o, x, s[..|s| - 1]);
      assert s == s[..|s| - 1] + [s[|s| - 1]];
    }
  }

  /** Appending an element no smaller than every key keeps a sequence sorted. */
  lemma SortedAppend(o: SortOrder, r: seq<Product>, z: Product)
    requires Sorted(o, r)
    requires forall k :: 0 <= k < |r| ==> Key(o, r[k]) <= Key(o, z)
    ensures Sorted(o, r + [z])
  {
    forall i, j | 0 <= i < j < |r| + 1 ensures Key(o, (r + [z])[i]) <= Key(o, (r + [z])[j]) {
      if j == |r| {
        assert (r + [z])[i] == r[i];
      } else {
        assert (r + [z])[i] == r[i] && (r + [z])[j] == r[j];
      }
    }
  }

  /** Inserting below a bound every key already respects keeps every key below it. */
  lemma InsertBounded(o: SortOrder, x: Product, s: seq<Product>, b: real)
    requires forall k :: 0 <= k < |s| ==> Key(o, s[k]) <= b
    requires Key(o, x) <= b
    ensures forall k :: 0 <= k < |Insert(o, x, s)| ==> Key(o, Insert(o, x, s)[k]) <= b
  {
    InsertPermutes(o, x, s);
    var r := Insert(o, x, s);
    forall k | 0 <= k < |r| ensures Key(o, r[k]) <= b {
      var y := r[k];
      assert y in multiset(r);
      if y != x {
        assert y in multiset(s);
        var m :| 0 <= m < |s| && s[m] == y;
      }
    }
  }

  lemma {:induction false} InsertSorted(o: SortOrder, x: Product, s: seq<Product>)
    requires Sorted(o, s)
    ensures Sorted(o, Insert(o, x, s))
    decreases |s|
  {
    if s == [] {
    } else if Key(o, s[|s| - 1]) > Key(o, x) {
      var init, last := s[..|s| - 1], s[|s| - 1];
      assert forall k :: 0 <= k < |init| ==> init[k] == s[k];
      InsertSorted(o, x, init);
      InsertBounded(o, x, init, Key(o, last));
      SortedAppend(o, Insert(o, x, init), last);
    } else {
      SortedAppend(o, s, x);
    }
  }

  /** Insertion sort returns a sorted permutation of its input. */
  lemma {:induction false} InsertionSortCorrect(o: SortOrder, s: seq<Product>)
    ensures Sorted(o, InsertionSort(o, s))
    ensures multiset(InsertionSort(o, s)) == multiset(s)
    ensures |InsertionSort(o, s)| == |s|
    decreases |s|
  {
    if s != [] {
      var init := s[..|s| - 1];
      InsertionSortCorrect(o, init);
      InsertSorted(o, s[|s| - 1], InsertionSort(o, init));
      InsertPermutes(o, s[|s| - 1], InsertionSort(o, init));
      assert s == init + [s[|s| - 1]];
    }
  }

  /** Where the in-place loop puts `x`: after the prefix whose keys do not exceed its own. */
  lemma {:induction false} InsertAt(o: SortOrder, x: Product, s: seq<Product>, j: nat)
    requires j <= |s|
    requires forall k :: j <= k < |s| ==> Key(o, s[k]) > Key(o, x)
    requires j == 0 || Key(o, s[j - 1]) <= Key(o, x)
    ensures Insert(o, x, s) == s[..j] + [x] + s[j..]
    decreases |s|
  {
    if j < |s| {
      var init := s[..|s| - 1];
      InsertAt(o, x, init, j);
      assert s[..j] == init[..j];
      assert s[j..] == init[j..] + [s[|s| - 1]];
    } else {
      assert s[..j] == s;
    }
  }

  /** A sequence that agrees with `s` below `j`, holds `x` at `j` and `s` shifted right above it. */
  lemma ShiftedInsert(t: seq<Product>, s: seq<Product>, x: Product, j: nat)
    requires j <= |s| && |t| == |s| + 1
    requires forall k :: 0 <= k < j ==> t[k] == s[k]
    requires t[j] == x
    requires forall k :: j < k < |t| ==> t[k] == s[k - 1]
    ensures t == s[..j] + [x] + s[j..]
  {
    var u := s[..j] + [x] + s[j..];
    forall k | 0 <= k < |t| ensures t[k] == u[k] {
      if k < j {
        assert u[k] == s[k];
      } else if k > j {
        assert u[k] == s[k - 1];
      }
    }
  }

  /** One step of the in-place sort: shifts the larger keys of `a[..i]` right and drops `a[i]` into the gap. */
  method InsertInPlace(o: SortOrder, a: array<Product>, i: nat)
    requires i < a.Length
    modifies a
    ensures a[..i + 1] == Insert(o, old(a[i]), old(a[..i]))
    ensures forall k :: i < k < a.Length ==> a[k] == old(a[k])
  {
    ghost var s := a[..i];
    var x := a[i];
    var j := i;
    while j > 0 && Key(o, a[j - 1]) > Key(o, x)
      invariant 0 <= j <= i
      invariant forall k :: 0 <= k < j ==> a[k] == s[k]
      invariant forall k :: j < k <= i ==> a[k] == s[k - 1]
      invariant forall k :: i < k < a.Length ==> a[k] == old(a[k])
      invariant forall k :: j <= k < i ==> Key(o, s[k]) > Key(o, x)
    {
      a[j] := a[j - 1];
      j := j - 1;
    }
    a[j] := x;
    InsertAt(o, x, s, j);
    ShiftedInsert(a[..i + 1], s, x, j);
  }

  /** The in-place sort the pages call: `a` ends up as the stable sort of its old contents. */
  method SortInPlace(o: SortOrder, a: array<Product>)
    modifies a
    ensures a[..] == InsertionSort(o, old(a[..]))
  {
    ghost var a0 := a[..];
    var i := 0;
    while i < a.Length
      invariant 0 <= i <= a.Length
      invariant a[..i] == InsertionSort(o, a0[..i])
      invariant forall k :: i <= k < a.Length ==> a[k] == a0[k]
    {
      InsertInPlace(o, a, i);
      assert a0[..i + 1][..i] == a0[..i];
      i := i + 1;
    }
    assert a0[..a.Length] == a0;
  }
}
