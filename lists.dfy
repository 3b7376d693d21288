/** `Array.prototype.filter` and the order-preserving subsequence relation it establishes. */
module Lists {

  /** `s.filter(f)`: the elements satisfying `f`, in their original order. */
  function Filter<T>(s: seq<T>, f: T -> bool): (r: seq<T>)
    ensures |r| <= |s|
    ensures forall x :: x in r ==> x in s && f(x)
    ensures forall x :: x in s && f(x) ==> x in r
  {
    if s == [] then []
    else if f(s[0]) then [s[0]] + Filter(s[1..], f)
    else Filter(s[1..], f)
  }

  /** `r` is obtained from `s` by deleting elements, keeping the order of the rest. */
  predicate IsSubsequence<T(==)>(r: seq<T>, s: seq<T>)
    decreases |s|
  {
    if r == [] then true
    else if s == [] then false
    else (r[0] == s[0] && IsSubsequence(r[1..], s[1..])) || IsSubsequence(r, s[1..])
  }

  lemma {:induction false} FilterIsSubsequence<T>(s: seq<T>, f: T -> bool)
    ensures IsSubsequence(Filter(s, f), s)
  {
    if s != [] {
      FilterIsSubsequence(s[1..], f);
      if f(s[0]) {
        assert Filter(s, f)[1..] == Filter(s[1..], f);
      } else {
        SubsequenceOfTail(Filter(s, f), s);
      }
    }
  }

  /** A subsequence of `s[1..]` is a subsequence of `s`. */
  lemma {:induction false} SubsequenceOfTail<T>(r: seq<T>, s: seq<T>)
    requires s != [] && IsSubsequence(r, s[1..])
    ensures IsSubsequence(r, s)
  {
  }

  /** What `Filter` keeps, counted with multiplicity: every copy of a kept value, none of the others. */
  lemma {:induction false} FilterMultiset<T>(s: seq<T>, f: T -> bool, x: T)
    ensures multiset(Filter(s, f))[x] == if f(x) then multiset(s)[x] else 0
  {
    if s != [] {
      FilterMultiset(s[1..], f, x);
      assert s == [s[0]] + s[1..];
      assert multiset(s) == multiset{s[0]} + multiset(s[1..]);
      if f(s[0]) {
        assert multiset(Filter(s, f)) == multiset{s[0]} + multiset(Filter(s[1..], f));
      }
    }
  }

  /** `FilterMultiset` for every value at once. */
  lemma FilterMultisetAll<T>(s: seq<T>, f: T -> bool)
    ensures forall x :: multiset(Filter(s, f))[x] == if f(x) then multiset(s)[x] else 0
  {
    forall x ensures multiset(Filter(s, f))[x] == if f(x) then multiset(s)[x] else 0 {
      FilterMultiset(s, f, x);
    }
  }

  /** Filtering with a predicate no element satisfies leaves nothing. */
  lemma {:induction false} FilterNone<T>(s: seq<T>, f: T -> bool)
    requires forall x :: x in s ==> !f(x)
    ensures Filter(s, f) == []
  {
    if s != [] {
      FilterNone(s[1..], f);
    }
  }

  /** Filtering with a predicate every element satisfies keeps everything. */
  lemma {:induction false} FilterAll<T>(s: seq<T>, f: T -> bool)
    requires forall x :: x in s ==> f(x)
    ensures Filter(s, f) == s
  {
    if s != [] {
      FilterAll(s[1..], f);
      assert s == [s[0]] + s[1..];
    }
  }

  /** Two predicates that agree on the elements of `s` filter it the same way. */
  lemma {:induction false} FilterCongruent<T>(s: seq<T>, f: T -> bool, g: T -> bool)
    requires forall x :: x in s ==> f(x) == g(x)
    ensures Filter(s, f) == Filter(s, g)
  {
    if s != [] {
      FilterCongruent(s[1..], f, g);
    }
  }

  /** Transitivity of the subsequence relation. */
  lemma {:induction false} SubsequenceTransitive<T>(r: seq<T>, s: seq<T>, t: seq<T>)
    requires IsSubsequence(r, s) && IsSubsequence(s, t)
    ensures IsSubsequence(r, t)
    decreases |t|
  {
    if r != [] && t != [] {
      if s[0] == t[0] && IsSubsequence(s[1..], t[1..]) {
        if r[0] == s[0] && IsSubsequence(r[1..], s[1..]) {
          SubsequenceTransitive(r[1..], s[1..], t[1..]);
        } else {
          SubsequenceTransitive(r, s[1..], t[1..]);
          SubsequenceOfTail(r, t);
        }
      } else {
        SubsequenceTransitive(r, s, t[1..]);
        SubsequenceOfTail(r, t);
      }
    }
  }
}
