/** A stable sort by a comparator, as `Array.prototype.sort` is required to be.
    The comparator is a total preorder `le` ("a may come before b"); two
    elements tie when each may come before the other. */
module StableSort {
  import opened Seqs

  /** Any two elements can be ordered one way or the other. */
  ghost predicate Total<T(!new)>(le: (T, T) -> bool)
  {
    forall a, b :: le(a, b) || le(b, a)
  }

  ghost predicate Transitive<T(!new)>(le: (T, T) -> bool)
  {
    forall a, b, c :: le(a, b) && le(b, c) ==> le(a, c)
  }

  ghost predicate TotalPreorder<T(!new)>(le: (T, T) -> bool)
  {
    Total(le) && Transitive(le)
  }

  predicate Tie<T>(le: (T, T) -> bool, a: T, b: T)
  {
    le(a, b) && le(b, a)
  }

  /** Every earlier element may come before every later one. */
  predicate Sorted<T>(le: (T, T) -> bool, s: seq<T>)
  {
    forall i, j :: 0 <= i < j < |s| ==> le(s[i], s[j])
  }

  /** The elements of `s` that tie with `x`, in their order in `s`. */
  function Ties<T>(le: (T, T) -> bool, s: seq<T>, x: T): seq<T>
  {
    if s == [] then []
    else Ties(le, s[..|s| - 1], x) + (if Tie(le, s[|s| - 1], x) then [s[|s| - 1]] else [])
  }

  /** `r` keeps every group of tied elements in its order in `s`. */
  ghost predicate StableWrt<T(!new)>(le: (T, T) -> bool, r: seq<T>, s: seq<T>)
  {
    forall x :: Ties(le, r, x) == Ties(le, s, x)
  }

  /** Inserts `x` into `r` after every element it need not precede. */
  function Insert<T>(le: (T, T) -> bool, r: seq<T>, x: T): seq<T>
  {
    if r == [] || le(r[|r| - 1], x) then r + [x]
    else Insert(le, r[..|r| - 1], x) + [r[|r| - 1]]
  }

  /** Stable insertion sort: each element goes after the ones before it that
      it ties with. */
  function Sort<T>(le: (T, T) -> bool, s: seq<T>): seq<T>
  {
    if s == [] then [] else Insert(le, Sort(le, s[..|s| - 1]), s[|s| - 1])
  }

  lemma {:induction false} InsertPermutes<T>(le: (T, T) -> bool, r: seq<T>, x: T)
    ensures multiset(Insert(le, r, x)) == multiset(r) + multiset{x}
  {
    if r != [] && !le(r[|r| - 1], x) {
      InsertPermutes(le, r[..|r| - 1], x);
      assert r == r[..|r| - 1] + [r[|r| - 1]];
    }
  }

  lemma {:induction false} InsertSorted<T(!new)>(le: (T, T) -> bool, r: seq<T>, x: T)
    requires TotalPreorder(le) && Sorted(le, r)
    ensures Sorted(le, Insert(le, r, x))
  {
    if r == [] || le(r[|r| - 1], x) {
      var t := r + [x];
      forall i, j | 0 <= i < j < |t| ensures le(t[i], t[j]) {
        if j == |r| && i < |r| - 1 {
          assert le(r[i], r[|r| - 1]);
        }
      }
    } else {
      var front, last := r[..|r| - 1], r[|r| - 1];
      InsertSorted(le, front, x);
      InsertPermutes(le, front, x);
      var u := Insert(le, front, x);
      forall i | 0 <= i < |u| ensures le(u[i], last) {
        assert u[i] in multiset(u);
        if u[i] != x {
          assert u[i] in front;
          var k :| 0 <= k < |front| && front[k] == u[i];
          assert le(r[k], r[|r| - 1]);
        }
      }
    }
  }

  lemma {:induction false} InsertTies<T(!new)>(le: (T, T) -> bool, r: seq<T>, x: T, y: T)
    requires TotalPreorder(le) && Sorted(le, r)
    ensures Ties(le, Insert(le, r, x), y) == Ties(le, r, y) + (if Tie(le, x, y) then [x] else [])
  {
    var t := Insert(le, r, x);
    if r == [] || le(r[|r| - 1], x) {
      assert t[..|t| - 1] == r;
    } else {
      var front, last := r[..|r| - 1], r[|r| - 1];
      forall i, j | 0 <= i < j < |front| ensures le(front[i], front[j]) {
        assert le(r[i], r[j]);
      }
      InsertTies(le, front, x, y);
      assert t[..|t| - 1] == Insert(le, front, x);
      assert r[..|r| - 1] == front;
      // `x` strictly precedes `last`, so both cannot tie with `y`.
      assert !(Tie(le, x, y) && Tie(le, last, y));
    }
  }

  /** The result holds the same elements as the input, as many times each. */
  lemma {:induction false} SortPermutes<T>(le: (T, T) -> bool, s: seq<T>)
    ensures multiset(Sort(le, s)) == multiset(s)
  {
    if s != [] {
      SortPermutes(le, s[..|s| - 1]);
      InsertPermutes(le, Sort(le, s[..|s| - 1]), s[|s| - 1]);
      assert s == s[..|s| - 1] + [s[|s| - 1]];
    }
  }

  /** The result is ordered by `le`. */
  lemma {:induction false} SortSorted<T(!new)>(le: (T, T) -> bool, s: seq<T>)
    requires TotalPreorder(le)
    ensures Sorted(le, Sort(le, s))
  {
    if s != [] {
      SortSorted(le, s[..|s| - 1]);
      InsertSorted(le, Sort(le, s[..|s| - 1]), s[|s| - 1]);
    }
  }

  /** Tied elements keep their input order. */
  lemma {:induction false} SortStable<T(!new)>(le: (T, T) -> bool, s: seq<T>)
    requires TotalPreorder(le)
    ensures StableWrt(le, Sort(le, s), s)
  {
    if s != [] {
      var front := s[..|s| - 1];
      SortStable(le, front);
      SortSorted(le, front);
      forall y ensures Ties(le, Sort(le, s), y) == Ties(le, s, y) {
        InsertTies(le, Sort(le, front), s[|s| - 1], y);
      }
    }
  }

  /** Filtering a sorted sequence leaves it sorted. */
  lemma {:induction false} FilterSorted<T>(le: (T, T) -> bool, p: T -> bool, s: seq<T>)
    requires Sorted(le, s)
    ensures Sorted(le, Filter(p, s))
  {
    if s != [] {
      var rest := s[1..];
      assert Sorted(le, rest) by {
        forall i, j | 0 <= i < j < |rest| ensures le(rest[i], rest[j]) {
          assert le(s[i + 1], s[j + 1]);
        }
      }
      FilterSorted(le, p, rest);
      FilterMembers(p, rest);
      var f := Filter(p, s);
      if p(s[0]) {
        forall i, j | 0 <= i < j < |f| ensures le(f[i], f[j]) {
          if i == 0 {
            assert f[j] in Filter(p, rest);
            var k :| 0 <= k < |rest| && rest[k] == f[j];
            assert le(s[0], s[k + 1]);
          }
        }
      }
    }
  }

  lemma TiesSnoc<T>(le: (T, T) -> bool, s: seq<T>, y: T, x: T)
    ensures Ties(le, s + [y], x) == Ties(le, s, x) + (if Tie(le, y, x) then [y] else [])
  {
    assert (s + [y])[..|s|] == s;
  }

  /** The last elements of two sorted sequences with the same elements tie. */
  lemma LastElementsTie<T(!new)>(le: (T, T) -> bool, a: seq<T>, b: seq<T>)
    requires Total(le)
    requires multiset(a) == multiset(b) && Sorted(le, a) && Sorted(le, b) && a != []
    ensures |b| == |a| && Tie(le, a[|a| - 1], b[|b| - 1])
  {
    assert |b| == |multiset(b)| == |multiset(a)| == |a|;
    var n := |a|;
    var la, lb := a[n - 1], b[n - 1];
    assert la in multiset(b) && lb in multiset(a);
    var kb :| 0 <= kb < n && b[kb] == la;
    var ka :| 0 <= ka < n && a[ka] == lb;
    if kb < n - 1 { assert le(b[kb], b[n - 1]); } else { assert le(la, la) || le(la, la); }
    if ka < n - 1 { assert le(a[ka], a[n - 1]); } else { assert le(lb, lb) || le(lb, lb); }
  }

  lemma SortedPrefix<T>(le: (T, T) -> bool, a: seq<T>)
    requires Sorted(le, a) && a != []
    ensures Sorted(le, a[..|a| - 1])
  {
    var a' := a[..|a| - 1];
    forall i, j | 0 <= i < j < |a'| ensures le(a'[i], a'[j]) { assert le(a[i], a[j]); }
  }

  /** When the ties of every element agree, so do the last elements. */
  lemma LastElementsEqual<T(!new)>(le: (T, T) -> bool, a: seq<T>, b: seq<T>)
    requires a != [] && |b| == |a|
    requires Tie(le, a[|a| - 1], a[|a| - 1]) && Tie(le, b[|b| - 1], a[|a| - 1])
    requires Ties(le, a, a[|a| - 1]) == Ties(le, b, a[|a| - 1])
    ensures a[|a| - 1] == b[|b| - 1]
  {
    var n := |a|;
    var la, lb := a[n - 1], b[n - 1];
    var ta, tb := Ties(le, a[..n - 1], la), Ties(le, b[..n - 1], la);
    assert Ties(le, a, la) == ta + [la];
    assert Ties(le, b, la) == tb + [lb];
    assert (ta + [la])[|ta|] == la;
    assert |ta| == |tb|;
    assert (tb + [lb])[|tb|] == lb;
  }

  /** Dropping a common last element keeps the ties of every element equal. */
  lemma PrefixTiesAgree<T>(le: (T, T) -> bool, a': seq<T>, b': seq<T>, y: T)
    requires forall x :: Ties(le, a' + [y], x) == Ties(le, b' + [y], x)
    ensures forall x :: Ties(le, a', x) == Ties(le, b', x)
  {
    forall x ensures Ties(le, a', x) == Ties(le, b', x) {
      TiesSnoc(le, a', y, x);
      TiesSnoc(le, b', y, x);
      var e := if Tie(le, y, x) then [y] else [];
      var ta, tb := Ties(le, a', x), Ties(le, b', x);
      assert Ties(le, a' + [y], x) == Ties(le, b' + [y], x);
      assert ta + e == tb + e;
      assert ta == (ta + e)[..|ta|] && tb == (tb + e)[..|tb|];
    }
  }

  /** Sorted sequences with the same elements and the same ties end alike. */
  lemma SameLast<T(!new)>(le: (T, T) -> bool, a: seq<T>, b: seq<T>)
    requires Total(le) && a != []
    requires multiset(a) == multiset(b) && Sorted(le, a) && Sorted(le, b)
    requires forall x :: Ties(le, a, x) == Ties(le, b, x)
    ensures |b| == |a| && b[|b| - 1] == a[|a| - 1]
  {
    LastElementsTie(le, a, b);
    var y := a[|a| - 1];
    assert Tie(le, y, y) by { assert le(y, y) || le(y, y); }
    assert Ties(le, a, y) == Ties(le, b, y);
    LastElementsEqual(le, a, b);
  }

  /** Removing a common last element keeps the multisets equal. */
  lemma PrefixMultisets<T>(a': seq<T>, b': seq<T>, y: T)
    requires multiset(a' + [y]) == multiset(b' + [y])
    ensures multiset(a') == multiset(b')
  {
    assert multiset(a') == multiset(a' + [y]) - multiset{y};
    assert multiset(b') == multiset(b' + [y]) - multiset{y};
  }

  /** Two sorted sequences with the same elements and the same order among
      tied elements are equal. */
  lemma {:induction false} SortedTiesDetermine<T(!new)>(le: (T, T) -> bool, a: seq<T>, b: seq<T>)
    requires Total(le)
    requires multiset(a) == multiset(b) && Sorted(le, a) && Sorted(le, b)
    requires forall x :: Ties(le, a, x) == Ties(le, b, x)
    ensures a == b
  {
    if a == [] {
      assert |b| == |multiset(b)| == 0;
    } else {
      SameLast(le, a, b);
      var n := |a|;
      var a', b', y := a[..n - 1], b[..n - 1], a[n - 1];
      assert a == a' + [y] && b == b' + [y];
      PrefixTiesAgree(le, a', b', y);
      PrefixMultisets(a', b', y);
      SortedPrefix(le, a);
      SortedPrefix(le, b);
      SortedTiesDetermine(le, a', b');
    }
  }

  /** `Sort` is the only stable sort: any ordering of the input that is
      sorted and keeps tied elements in input order is `Sort`'s result, so the
      model does not depend on which stable algorithm the engine uses. */
  lemma StableSortIsUnique<T(!new)>(le: (T, T) -> bool, s: seq<T>, r: seq<T>)
    requires TotalPreorder(le)
    requires multiset(r) == multiset(s) && Sorted(le, r) && StableWrt(le, r, s)
    ensures r == Sort(le, s)
  {
    SortPermutes(le, s);
    SortSorted(le, s);
    SortStable(le, s);
    SortedTiesDetermine(le, r, Sort(le, s));
  }
}
