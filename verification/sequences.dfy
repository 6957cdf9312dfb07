/**
 * List operations the Python code gets from its built-ins: comprehension
 * filters, lists without repeated keys, and `list.sort(key=...)` on keys
 * ordered like Python tuples of a number and a timestamp.
 */
module Sequences {

  /** A sequence is its part before `k`, its `k`th element and its part after. */
  lemma SplitAt<T>(s: seq<T>, k: nat)
    requires k < |s|
    ensures s == s[..k] + ([s[k]] + s[k + 1..])
  {
    assert [s[k]] + s[k + 1..] == s[k..];
  }

  /** No element occurs twice, as for the keys of a dictionary. */
  predicate NoDup<T(==)>(s: seq<T>)
  {
    forall i, j :: 0 <= i < j < |s| ==> s[i] != s[j]
  }

  lemma {:induction false} NoDupCount<T>(s: seq<T>, x: T)
    requires NoDup(s)
    ensures multiset(s)[x] <= 1
    decreases |s|
  {
    if s != [] {
      assert s == [s[0]] + s[1..];
      assert NoDup(s[1..]) by {
        forall i, j | 0 <= i < j < |s[1..]| ensures s[1..][i] != s[1..][j] {
          assert s[1..][i] == s[i + 1] && s[1..][j] == s[j + 1];
        }
      }
      NoDupCount(s[1..], x);
      if s[0] == x {
        assert x !in s[1..];
      }
    }
  }

  lemma DupCount<T>(s: seq<T>, i: nat, j: nat)
    requires i < j < |s| && s[i] == s[j]
    ensures multiset(s)[s[i]] >= 2
  {
    assert s == s[..j] + s[j..];
    assert s[i] in s[..j];
    assert s[j..][0] == s[j];
  }

  /** Reordering keeps a list free of repeats. */
  lemma NoDupPermutation<T>(a: seq<T>, b: seq<T>)
    requires multiset(a) == multiset(b) && NoDup(b)
    ensures NoDup(a)
  {
    forall i, j | 0 <= i < j < |a| ensures a[i] != a[j] {
      if a[i] == a[j] {
        DupCount(a, i, j);
        NoDupCount(b, a[i]);
      }
    }
  }

  /** `[x for x in s if p(x)]` */
  function Filter<T(!new,==)>(s: seq<T>, p: T -> bool): (r: seq<T>)
    ensures |r| <= |s|
    ensures forall x :: x in r <==> x in s && p(x)
  {
    if s == [] then []
    else
      var rest := Filter(s[1..], p);
      if p(s[0]) then [s[0]] + rest else rest
  }

  /** Filtering a list without repeats leaves a list without repeats. */
  lemma {:induction false} FilterNoDup<T(!new)>(s: seq<T>, p: T -> bool)
    requires NoDup(s)
    ensures NoDup(Filter(s, p))
  {
    if s != [] {
      assert NoDup(s[1..]) && s[0] !in s[1..] by {
        forall i, j | 0 <= i < j < |s[1..]| ensures s[1..][i] != s[1..][j] {
          assert s[1..][i] == s[i + 1] && s[1..][j] == s[j + 1];
        }
      }
      FilterNoDup(s[1..], p);
    }
  }

  lemma FilterSnoc<T(!new)>(s: seq<T>, x: T, p: T -> bool)
    ensures Filter(s + [x], p) == Filter(s, p) + (if p(x) then [x] else [])
    decreases |s|
  {
    if s == [] {
      assert [x][1..] == [];
    } else {
      assert (s + [x])[1..] == s[1..] + [x];
      FilterSnoc(s[1..], x, p);
    }
  }

  /** The list without `x`: a dictionary's key order after `del d[x]`. */
  function RemoveValue<T(!new,==)>(s: seq<T>, x: T): (r: seq<T>)
    ensures forall y :: y in r <==> y in s && y != x
    ensures NoDup(s) ==> NoDup(r)
    ensures NoDup(s) && x in s ==> |r| == |s| - 1
    ensures x !in s ==> r == s
  {
    if s == [] then []
    else
      assert NoDup(s) ==> NoDup(s[1..]) && s[0] !in s[1..] by {
        if NoDup(s) {
          forall i, j | 0 <= i < j < |s[1..]| ensures s[1..][i] != s[1..][j] {
            assert s[1..][i] == s[i + 1] && s[1..][j] == s[j + 1];
          }
        }
      }
      assert s == [s[0]] + s[1..];
      if s[0] == x then RemoveValue(s[1..], x) else [s[0]] + RemoveValue(s[1..], x)
  }

  /** `(a0, a1) <= (b0, b1)` on Python tuples. */
  predicate RankLe(a: (int, real), b: (int, real))
  {
    a.0 < b.0 || (a.0 == b.0 && a.1 <= b.1)
  }

  predicate SortedBy<T>(s: seq<T>, rank: T -> (int, real))
  {
    forall i, j :: 0 <= i < j < |s| ==> RankLe(rank(s[i]), rank(s[j]))
  }

  /** Insert `x` into sorted `s` before the first element that ranks no lower than it. */
  function Insert<T(!new)>(x: T, s: seq<T>, rank: T -> (int, real)): (r: seq<T>)
    requires SortedBy(s, rank)
    ensures multiset(r) == multiset(s) + multiset{x}
    ensures SortedBy(r, rank)
  {
    if s == [] || RankLe(rank(x), rank(s[0])) then [x] + s
    else
      var rest := Insert(x, s[1..], rank);
      assert s == [s[0]] + s[1..];
      LeadSorted(s[0], rest, x, s[1..], rank);
      [s[0]] + rest
  }

  /** `[h] + rest` is sorted when `rest` is and holds only `x` and elements of sorted `[h] + t`, with `h` ranked below `x`. */
  lemma LeadSorted<T>(h: T, rest: seq<T>, x: T, t: seq<T>, rank: T -> (int, real))
    requires SortedBy(rest, rank) && SortedBy([h] + t, rank)
    requires multiset(rest) == multiset(t) + multiset{x}
    requires !RankLe(rank(x), rank(h))
    ensures SortedBy([h] + rest, rank)
  {
    var r := [h] + rest;
    forall k | 0 <= k < |rest| ensures RankLe(rank(h), rank(rest[k])) {
      assert rest[k] in multiset(rest);
      if rest[k] != x {
        assert rest[k] in multiset(t);
        var m :| 0 <= m < |t| && t[m] == rest[k];
        assert ([h] + t)[0] == h && ([h] + t)[m + 1] == t[m];
        assert RankLe(rank(([h] + t)[0]), rank(([h] + t)[m + 1]));
      }
    }
    forall i, j | 0 <= i < j < |r| ensures RankLe(rank(r[i]), rank(r[j])) {
      assert r[j] == rest[j - 1];
      if i > 0 {
        assert r[i] == rest[i - 1];
      }
    }
  }

  /** `sorted(s, key=rank)`: the same elements, ordered by rank. */
  function SortByRank<T(!new)>(s: seq<T>, rank: T -> (int, real)): (r: seq<T>)
    ensures multiset(r) == multiset(s)
    ensures SortedBy(r, rank)
  {
    if s == [] then []
    else
      assert s == [s[0]] + s[1..];
      Insert(s[0], SortByRank(s[1..], rank), rank)
  }

  /** Sorting a list without repeats keeps exactly its elements, once each. */
  lemma SortByRankKeeps<T(!new)>(s: seq<T>, rank: T -> (int, real))
    requires NoDup(s)
    ensures NoDup(SortByRank(s, rank))
    ensures forall x :: x in SortByRank(s, rank) <==> x in s
  {
    var r := SortByRank(s, rank);
    NoDupPermutation(r, s);
    forall x ensures x in r <==> x in s {
      assert x in r <==> x in multiset(r);
      assert x in s <==> x in multiset(s);
    }
  }

  /** Sorting keeps exactly the elements of the list. */
  lemma SortByRankMembers<T(!new)>(s: seq<T>, rank: T -> (int, real))
    ensures forall x :: x in SortByRank(s, rank) <==> x in s
  {
    var r := SortByRank(s, rank);
    forall x ensures x in r <==> x in s {
      assert x in r <==> x in multiset(r);
      assert x in s <==> x in multiset(s);
    }
  }

  /** Dropping elements from a sorted list leaves it sorted. */
  lemma FilterSorted<T(!new)>(s: seq<T>, p: T -> bool, rank: T -> (int, real))
    requires SortedBy(s, rank)
    ensures SortedBy(Filter(s, p), rank)
  {
    if s != [] {
      var tail := s[1..];
      assert SortedBy(tail, rank) by {
        forall i, j | 0 <= i < j < |tail| ensures RankLe(rank(tail[i]), rank(tail[j])) {
          assert tail[i] == s[i + 1] && tail[j] == s[j + 1];
        }
      }
      FilterSorted(tail, p, rank);
      if p(s[0]) {
        var r := Filter(s, p);
        var rest := Filter(tail, p);
        assert r == [s[0]] + rest;
        forall i, j | 0 <= i < j < |r| ensures RankLe(rank(r[i]), rank(r[j])) {
          assert r[j] == rest[j - 1];
          if i == 0 {
            assert rest[j - 1] in tail;
            var m :| 0 <= m < |tail| && tail[m] == rest[j - 1];
            assert s[m + 1] == tail[m];
          } else {
            assert r[i] == rest[i - 1];
          }
        }
      }
    }
  }
}
