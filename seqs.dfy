/** Sequence operations that stand in for the query set machinery: filtering
    (`.filter(...)`), de-duplication (`.distinct()`) and ordering
    (`.order_by(...)` and the models' default `Meta.ordering`). */
module Seqs {

  /** No element occurs twice. */
  predicate NoDup<T(==)>(s: seq<T>) {
    forall i, j :: 0 <= i < j < |s| ==> s[i] != s[j]
  }

  /** `.filter(p)`: the elements satisfying `p`, in their original order. */
  function Filter<T>(s: seq<T>, p: T -> bool): (r: seq<T>)
    ensures |r| <= |s|
    ensures forall i :: 0 <= i < |r| ==> r[i] in s && p(r[i])
    ensures forall i :: 0 <= i < |s| && p(s[i]) ==> s[i] in r
    ensures multiset(r) <= multiset(s)
  {
    if s == [] then []
    else
      assert s == [s[0]] + s[1..];
      if p(s[0]) then [s[0]] + Filter(s[1..], p) else Filter(s[1..], p)
  }

  /** `Filter`'s contract, stated element-wise. */
  lemma FilterMembers<T>(s: seq<T>, p: T -> bool)
    ensures forall x :: x in Filter(s, p) <==> x in s && p(x)
  {
    var r := Filter(s, p);
    forall x ensures x in r <==> x in s && p(x) {
      if x in r {
        var i :| 0 <= i < |r| && r[i] == x;
      }
      if x in s && p(x) {
        var i :| 0 <= i < |s| && s[i] == x;
      }
    }
  }

  /** `Dedup`'s contract, stated element-wise. */
  lemma DedupMembers<T>(s: seq<T>)
    ensures forall x :: x in Dedup(s) <==> x in s
  {
    var r := Dedup(s);
    forall x ensures x in r <==> x in s {
      if x in r {
        var i :| 0 <= i < |r| && r[i] == x;
      }
      if x in s {
        var i :| 0 <= i < |s| && s[i] == x;
      }
    }
  }

  /** A list built element by element by `f` holds exactly the images of the source list. */
  lemma MapMembers<A, B>(xs: seq<A>, ys: seq<B>, f: A -> B)
    requires |ys| == |xs|
    requires forall i :: 0 <= i < |xs| ==> ys[i] == f(xs[i])
    ensures forall y :: y in ys <==> exists x :: x in xs && y == f(x)
  {
    forall y ensures y in ys <==> exists x :: x in xs && y == f(x) {
      if y in ys {
        var i :| 0 <= i < |ys| && ys[i] == y;
        assert xs[i] in xs;
      }
      if exists x :: x in xs && y == f(x) {
        var x :| x in xs && y == f(x);
        var i :| 0 <= i < |xs| && xs[i] == x;
        assert ys[i] == y;
      }
    }
  }

  /** Lists with the same multiset have the same elements. */
  lemma MultisetMembers<T>(a: seq<T>, b: seq<T>)
    requires multiset(a) == multiset(b)
    ensures forall i :: 0 <= i < |a| ==> a[i] in b
  {
    forall i | 0 <= i < |a| ensures a[i] in b {
      assert a[i] in multiset(a);
    }
  }

  /** The first element of `a` sits at some index `k` of its permutation `b`;
      without them the two lists are still permutations of each other. */
  lemma MultisetRemove<T>(a: seq<T>, b: seq<T>) returns (k: int)
    requires a != [] && multiset(a) == multiset(b)
    ensures 0 <= k < |b| && b[k] == a[0]
    ensures multiset(a[1..]) == multiset(b[..k] + b[k + 1..])
  {
    assert a[0] in multiset(b);
    k :| 0 <= k < |b| && b[k] == a[0];
    assert b == b[..k] + [b[k]] + b[k + 1..];
    assert multiset(b) == multiset(b[..k]) + multiset{b[k]} + multiset(b[k + 1..]);
    assert multiset(b[..k] + b[k + 1..]) == multiset(b[..k]) + multiset(b[k + 1..]);
    assert a == [a[0]] + a[1..];
    assert multiset(a) == multiset{a[0]} + multiset(a[1..]);
    var rest := multiset(b[..k] + b[k + 1..]);
    assert multiset(b[..k]) + multiset{b[k]} + multiset(b[k + 1..]) == rest + multiset{b[k]};
    assert multiset(a[1..]) + multiset{a[0]} == rest + multiset{a[0]};
    assert multiset(a[1..]) == (multiset(a[1..]) + multiset{a[0]}) - multiset{a[0]};
    assert rest == (rest + multiset{a[0]}) - multiset{a[0]};
  }

  lemma {:induction false} FilterNoDup<T>(s: seq<T>, p: T -> bool)
    requires NoDup(s)
    ensures NoDup(Filter(s, p))
  {
    if s != [] {
      FilterNoDup(s[1..], p);
      assert s[0] !in s[1..];
    }
  }

  /** Filtering twice is filtering by the conjunction. */
  lemma {:induction false} FilterFilter<T>(s: seq<T>, p: T -> bool, q: T -> bool)
    ensures Filter(Filter(s, p), q) == Filter(s, x => p(x) && q(x))
  {
    if s != [] {
      FilterFilter(s[1..], p, q);
    }
  }

  /** `.distinct()`: every element once, keeping its last occurrence. */
  function Dedup<T(==)>(s: seq<T>): (r: seq<T>)
    ensures forall i :: 0 <= i < |r| ==> r[i] in s
    ensures forall i :: 0 <= i < |s| ==> s[i] in r
    ensures NoDup(r)
    ensures |r| <= |s|
  {
    if s == [] then []
    else if s[0] in s[1..] then Dedup(s[1..])
    else [s[0]] + Dedup(s[1..])
  }

  /** On a sequence without repetitions `.distinct()` changes nothing. */
  lemma {:induction false} DedupOfNoDup<T>(s: seq<T>)
    requires NoDup(s)
    ensures Dedup(s) == s
  {
    if s != [] {
      assert s[0] !in s[1..];
      DedupOfNoDup(s[1..]);
    }
  }

  // ---------------------------------------------------------------- ordering

  /** `le` compares `x` with every element of `s`, one way or the other. */
  predicate ComparableTo<T>(x: T, s: seq<T>, le: (T, T) -> bool) {
    forall j :: 0 <= j < |s| ==> le(x, s[j]) || le(s[j], x)
  }

  /** `le` compares every pair of elements of `s` one way or the other. */
  predicate TotalOn<T>(s: seq<T>, le: (T, T) -> bool) {
    forall i :: 0 <= i < |s| ==> ComparableTo(s[i], s, le)
  }

  /** Each element is `le` its successor. */
  predicate Sorted<T>(s: seq<T>, le: (T, T) -> bool) {
    forall i :: 0 <= i < |s| - 1 ==> le(s[i], s[i + 1])
  }

  /** `le` is transitive on the elements of `s`. */
  predicate TransitiveOn<T>(s: seq<T>, le: (T, T) -> bool) {
    forall i, j, k :: 0 <= i < |s| && 0 <= j < |s| && 0 <= k < |s| && le(s[i], s[j]) && le(s[j], s[k]) ==>
      le(s[i], s[k])
  }

  lemma {:induction false} SortedUpTo<T>(s: seq<T>, le: (T, T) -> bool, i: int, j: int)
    requires Sorted(s, le) && TransitiveOn(s, le)
    requires 0 <= i < j < |s|
    ensures le(s[i], s[j])
    decreases j - i
  {
    if j > i + 1 {
      SortedUpTo(s, le, i, j - 1);
      assert le(s[j - 1], s[j]);
    }
  }

  /** Under a transitive `le`, neighbours in order means every pair in order. */
  lemma SortedPairwise<T>(s: seq<T>, le: (T, T) -> bool)
    requires Sorted(s, le) && TransitiveOn(s, le)
    ensures forall i, j :: 0 <= i < j < |s| ==> le(s[i], s[j])
  {
    forall i, j | 0 <= i < j < |s| ensures le(s[i], s[j]) {
      SortedUpTo(s, le, i, j);
    }
  }

  function Insert<T>(x: T, s: seq<T>, le: (T, T) -> bool): (r: seq<T>)
    requires ComparableTo(x, s, le) && Sorted(s, le)
    ensures multiset(r) == multiset(s) + multiset{x}
    ensures Sorted(r, le)
    ensures |r| > 0 && (r[0] == x || (s != [] && r[0] == s[0]))
  {
    if s == [] then [x]
    else if le(x, s[0]) then [x] + s
    else
      assert le(s[0], x);
      var rest := Insert(x, s[1..], le);
      assert s == [s[0]] + s[1..];
      [s[0]] + rest
  }

  lemma TotalOnTail<T>(s: seq<T>, le: (T, T) -> bool)
    requires s != [] && TotalOn(s, le)
    ensures TotalOn(s[1..], le) && ComparableTo(s[0], s[1..], le)
  {
    assert ComparableTo(s[0], s, le);
    forall i | 0 <= i < |s| - 1 ensures ComparableTo(s[1..][i], s[1..], le) {
      assert ComparableTo(s[i + 1], s, le);
    }
  }

  /** Insertion sort: what `ORDER BY` returns. */
  function SortBy<T>(s: seq<T>, le: (T, T) -> bool): (r: seq<T>)
    requires TotalOn(s, le)
    ensures multiset(r) == multiset(s)
    ensures Sorted(r, le)
  {
    if s == [] then []
    else
      assert s == [s[0]] + s[1..];
      TotalOnTail(s, le);
      var rest := SortBy(s[1..], le);
      assert ComparableTo(s[0], rest, le) by {
        forall j | 0 <= j < |rest| ensures le(s[0], rest[j]) || le(rest[j], s[0]) {
          assert rest[j] in multiset(s[1..]);
        }
      }
      Insert(s[0], rest, le)
  }

  lemma SortByMembers<T>(s: seq<T>, le: (T, T) -> bool)
    requires TotalOn(s, le)
    ensures |SortBy(s, le)| == |s|
    ensures forall i :: 0 <= i < |s| ==> s[i] in SortBy(s, le)
    ensures forall i :: 0 <= i < |s| ==> SortBy(s, le)[i] in s
  {
    var r := SortBy(s, le);
    assert |r| == |multiset(r)| == |multiset(s)| == |s|;
    forall i | 0 <= i < |s| ensures s[i] in r && r[i] in s {
      assert s[i] in multiset(s);
      assert r[i] in multiset(r);
    }
  }

  /** `SortBy`'s permutation, stated element-wise. */
  lemma SortByElements<T>(s: seq<T>, le: (T, T) -> bool)
    requires TotalOn(s, le)
    ensures forall x :: x in SortBy(s, le) <==> x in s
  {
    var r := SortBy(s, le);
    forall x ensures x in r <==> x in s {
      assert x in r <==> x in multiset(r);
      assert x in s <==> x in multiset(s);
    }
  }

  /** A sequence is free of repetitions exactly when its multiset counts every
      element at most once. */
  lemma {:induction false} NoDupMultiset<T>(s: seq<T>)
    ensures NoDup(s) <==> forall x :: multiset(s)[x] <= 1
  {
    if s != [] {
      NoDupMultiset(s[1..]);
      assert s == [s[0]] + s[1..];
      assert multiset(s) == multiset{s[0]} + multiset(s[1..]);
      if NoDup(s) {
        assert s[0] !in s[1..];
        assert NoDup(s[1..]) by {
          forall i, j | 0 <= i < j < |s[1..]| ensures s[1..][i] != s[1..][j] {
            assert s[1..][i] == s[i + 1] && s[1..][j] == s[j + 1];
          }
        }
      }
      if forall x :: multiset(s)[x] <= 1 {
        assert forall x :: multiset(s[1..])[x] <= 1 by {
          forall x ensures multiset(s[1..])[x] <= 1 {
            assert multiset(s)[x] <= 1;
          }
        }
        assert multiset(s)[s[0]] <= 1;
        assert s[0] !in multiset(s[1..]);
        forall i, j | 0 <= i < j < |s| ensures s[i] != s[j] {
          if i == 0 {
            assert s[j] in s[1..];
          } else {
            assert s[i] == s[1..][i - 1] && s[j] == s[1..][j - 1];
          }
        }
      }
    }
  }

  /** Ordering neither adds nor removes repetitions. */
  lemma SortByNoDup<T>(s: seq<T>, le: (T, T) -> bool)
    requires TotalOn(s, le)
    ensures NoDup(SortBy(s, le)) <==> NoDup(s)
  {
    NoDupMultiset(s);
    NoDupMultiset(SortBy(s, le));
  }
}
