/** `Array.prototype.filter` over immutable sequences, and what it promises. */
module Seqs {

  /** The elements of `s` that satisfy `p`, in their original order. */
  function Filter<T>(p: T -> bool, s: seq<T>): seq<T>
  {
    if s == [] then [] else (if p(s[0]) then [s[0]] else []) + Filter(p, s[1..])
  }

  /** `r` can be obtained from `s` by deleting elements, without reordering. */
  predicate IsSubsequence<T(==)>(r: seq<T>, s: seq<T>)
  {
    if r == [] then true
    else if s == [] then false
    else (r[0] == s[0] && IsSubsequence(r[1..], s[1..])) || IsSubsequence(r, s[1..])
  }

  /** Filtering keeps exactly the occurrences that satisfy `p`: each value
      occurs in the result as often as in the input when it satisfies `p`,
      and not at all otherwise. */
  lemma {:induction false} FilterCounts<T>(p: T -> bool, s: seq<T>)
    ensures forall x :: multiset(Filter(p, s))[x] == if p(x) then multiset(s)[x] else 0
  {
    if s != [] {
      FilterCounts(p, s[1..]);
      assert s == [s[0]] + s[1..];
      assert multiset(s) == multiset{s[0]} + multiset(s[1..]);
    }
  }

  /** Filtering never reorders: the result is a subsequence of the input. */
  lemma {:induction false} FilterIsSubsequence<T>(p: T -> bool, s: seq<T>)
    ensures IsSubsequence(Filter(p, s), s)
  {
    if s != [] {
      FilterIsSubsequence(p, s[1..]);
      if p(s[0]) {
        assert Filter(p, s) == [s[0]] + Filter(p, s[1..]);
        assert Filter(p, s)[1..] == Filter(p, s[1..]);
      } else {
        assert Filter(p, s) == Filter(p, s[1..]);
      }
    }
  }

  /** Every element of the result satisfies `p` and comes from the input. */
  lemma FilterMembers<T>(p: T -> bool, s: seq<T>)
    ensures forall x :: x in Filter(p, s) ==> p(x) && x in s
  {
    FilterCounts(p, s);
    forall x | x in Filter(p, s) ensures p(x) && x in s {
      assert multiset(Filter(p, s))[x] > 0;
    }
  }

  /** The result is a sub-multiset of the input: nothing is invented. */
  lemma FilterShrinks<T>(p: T -> bool, s: seq<T>)
    ensures multiset(Filter(p, s)) <= multiset(s)
    ensures |Filter(p, s)| <= |s|
  {
    FilterCounts(p, s);
    assert multiset(Filter(p, s)) <= multiset(s);
  }

  /** When every element satisfies `p`, filtering returns the input itself. */
  lemma {:induction false} FilterKeepsAll<T>(p: T -> bool, s: seq<T>)
    requires forall x :: x in s ==> p(x)
    ensures Filter(p, s) == s
  {
    if s != [] {
      assert s[0] in s;
      forall x | x in s[1..] ensures p(x) {
        assert x in s;
      }
      FilterKeepsAll(p, s[1..]);
    }
  }

  /** Filtering twice with the same predicate is the same as filtering once. */
  lemma FilterIdempotent<T>(p: T -> bool, s: seq<T>)
    ensures Filter(p, Filter(p, s)) == Filter(p, s)
  {
    FilterMembers(p, s);
    FilterKeepsAll(p, Filter(p, s));
  }

  /** When `p` holds at index `k` and nowhere else, filtering yields `[s[k]]`;
      when it holds nowhere, it yields `[]`. */
  lemma {:induction false} FilterAtMostOne<T>(p: T -> bool, s: seq<T>, k: int)
    requires forall i :: 0 <= i < |s| && i != k ==> !p(s[i])
    ensures 0 <= k < |s| && p(s[k]) ==> Filter(p, s) == [s[k]]
    ensures !(0 <= k < |s| && p(s[k])) ==> Filter(p, s) == []
    ensures |Filter(p, s)| <= 1
  {
    if s != [] {
      forall i | 0 <= i < |s[1..]| && i != k - 1 ensures !p(s[1..][i]) {
        assert s[1..][i] == s[i + 1];
      }
      FilterAtMostOne(p, s[1..], k - 1);
    }
  }
}
