/** Stream-like operations on sequences: `filter`, a stable `sorted` by an integer key,
    and minimum. They are the building blocks of the repository queries and of the
    menu projection. */
module Seqs {
  import Wrappers

  /** `stream().filter(keep)`: the kept elements, in their original order. */
  function Filter<T(==)>(s: seq<T>, keep: T -> bool): (r: seq<T>)
    ensures |r| <= |s|
    ensures forall i :: 0 <= i < |r| ==> keep(r[i])
    ensures forall i :: 0 <= i < |r| ==> r[i] in s
    ensures forall i :: 0 <= i < |s| && keep(s[i]) ==> s[i] in r
  {
    if |s| == 0 then []
    else (if keep(s[0]) then [s[0]] else []) + Filter(s[1..], keep)
  }

  lemma {:induction false} FilterConcat<T>(a: seq<T>, b: seq<T>, keep: T -> bool)
    ensures Filter(a + b, keep) == Filter(a, keep) + Filter(b, keep)
    decreases |a|
  {
    if |a| > 0 {
      var head := if keep(a[0]) then [a[0]] else [];
      assert (a + b)[0] == a[0];
      assert (a + b)[1..] == a[1..] + b;
      assert Filter(a + b, keep) == head + Filter(a[1..] + b, keep);
      FilterConcat(a[1..], b, keep);
      assert Filter(a, keep) == head + Filter(a[1..], keep);
    } else {
      assert a + b == b;
    }
  }

  /** An element is kept by exactly one of two opposite filters. */
  lemma {:induction false} FilterComplement<T>(s: seq<T>, keep: T -> bool, drop: T -> bool)
    requires forall x :: drop(x) == !keep(x)
    ensures |Filter(s, keep)| + |Filter(s, drop)| == |s|
    decreases |s|
  {
    if |s| > 0 {
      FilterComplement(s[1..], keep, drop);
    }
  }

  /** Filtering keeps a sequence whole when every element passes. */
  lemma {:induction false} FilterAll<T>(s: seq<T>, keep: T -> bool)
    requires forall i :: 0 <= i < |s| ==> keep(s[i])
    ensures Filter(s, keep) == s
    decreases |s|
  {
    if |s| > 0 {
      FilterAll(s[1..], keep);
      assert [s[0]] + s[1..] == s;
    }
  }

  /** `a` is an order-preserving subsequence of `b`. */
  predicate Subsequence<T(==)>(a: seq<T>, b: seq<T>)
    decreases |b|
  {
    if |a| == 0 then true
    else if |b| == 0 then false
    else (a[0] == b[0] && Subsequence(a[1..], b[1..])) || Subsequence(a, b[1..])
  }

  lemma {:induction false} FilterIsSubsequence<T>(s: seq<T>, keep: T -> bool)
    ensures Subsequence(Filter(s, keep), s)
    decreases |s|
  {
    if |s| > 0 {
      FilterIsSubsequence(s[1..], keep);
      var f := Filter(s, keep);
      if keep(s[0]) {
        assert f == [s[0]] + Filter(s[1..], keep);
        assert f[0] == s[0] && f[1..] == Filter(s[1..], keep);
      } else {
        assert f == Filter(s[1..], keep);
      }
    }
  }

  predicate SortedBy<T>(s: seq<T>, key: T -> int) {
    forall i, j :: 0 <= i < j < |s| ==> key(s[i]) <= key(s[j])
  }

  /** Inserts `x` after every element whose key is at most `key(x)`. */
  function InsertBy<T>(x: T, s: seq<T>, key: T -> int): (r: seq<T>)
    ensures multiset(r) == multiset(s) + multiset{x}
    ensures |r| == |s| + 1
    decreases |s|
  {
    if |s| == 0 then [x]
    else if key(x) < key(s[0]) then [x] + s
    else
      assert s == [s[0]] + s[1..];
      [s[0]] + InsertBy(x, s[1..], key)
  }

  /** Every key of an insertion is bounded below by a bound of `x` and of every key in `s`. */
  lemma {:induction false} InsertByLowerBound<T>(x: T, s: seq<T>, key: T -> int, lo: int)
    requires lo <= key(x)
    requires forall i :: 0 <= i < |s| ==> lo <= key(s[i])
    ensures forall i :: 0 <= i < |s| + 1 ==> lo <= key(InsertBy(x, s, key)[i])
    decreases |s|
  {
    if |s| > 0 && key(x) >= key(s[0]) {
      InsertByLowerBound(x, s[1..], key, lo);
      var r := InsertBy(x, s, key);
      assert r[1..] == InsertBy(x, s[1..], key);
      assert forall i :: 1 <= i < |s| + 1 ==> r[i] == InsertBy(x, s[1..], key)[i - 1];
    }
  }

  lemma {:induction false} InsertBySorted<T>(x: T, s: seq<T>, key: T -> int)
    requires SortedBy(s, key)
    ensures SortedBy(InsertBy(x, s, key), key)
    decreases |s|
  {
    if |s| > 0 && key(x) >= key(s[0]) {
      InsertBySorted(x, s[1..], key);
      InsertByLowerBound(x, s[1..], key, key(s[0]));
      var r := InsertBy(x, s, key);
      var t := InsertBy(x, s[1..], key);
      assert r == [s[0]] + t;
      assert forall i :: 1 <= i < |r| ==> r[i] == t[i - 1];
    }
  }

  /** `stream().sorted(Comparator.comparing(key))`: a stable sort by an integer key. */
  function SortBy<T>(s: seq<T>, key: T -> int): (r: seq<T>)
    ensures multiset(r) == multiset(s)
    ensures SortedBy(r, key)
    decreases |s|
  {
    if |s| == 0 then []
    else
      assert s == s[..|s| - 1] + [s[|s| - 1]];
      InsertBySorted(s[|s| - 1], SortBy(s[..|s| - 1], key), key);
      InsertBy(s[|s| - 1], SortBy(s[..|s| - 1], key), key)
  }

  /** Sorting keeps the length and the members. */
  lemma SortByMembers<T>(s: seq<T>, key: T -> int)
    ensures |SortBy(s, key)| == |s|
    ensures forall x :: x in SortBy(s, key) <==> x in s
  {
    var r := SortBy(s, key);
    assert |r| == |multiset(r)| == |multiset(s)| == |s|;
    forall x
      ensures x in r <==> x in s
    {
      assert x in r <==> x in multiset(r);
      assert x in s <==> x in multiset(s);
    }
  }

  /** The elements whose key equals `k`, in order. */
  function WithKey<T>(s: seq<T>, key: T -> int, k: int): (r: seq<T>)
    ensures forall i :: 0 <= i < |r| ==> key(r[i]) == k
  {
    if |s| == 0 then []
    else (if key(s[0]) == k then [s[0]] else []) + WithKey(s[1..], key, k)
  }

  lemma {:induction false} WithKeyConcat<T>(a: seq<T>, b: seq<T>, key: T -> int, k: int)
    ensures WithKey(a + b, key, k) == WithKey(a, key, k) + WithKey(b, key, k)
    decreases |a|
  {
    if |a| > 0 {
      var head := if key(a[0]) == k then [a[0]] else [];
      assert (a + b)[0] == a[0];
      assert (a + b)[1..] == a[1..] + b;
      assert WithKey(a + b, key, k) == head + WithKey(a[1..] + b, key, k);
      WithKeyConcat(a[1..], b, key, k);
      assert WithKey(a, key, k) == head + WithKey(a[1..], key, k);
    } else {
      assert a + b == b;
    }
  }

  lemma {:induction false} WithKeyAbove<T>(s: seq<T>, key: T -> int, k: int)
    requires forall i :: 0 <= i < |s| ==> key(s[i]) > k
    ensures WithKey(s, key, k) == []
    decreases |s|
  {
    if |s| > 0 {
      WithKeyAbove(s[1..], key, k);
    }
  }

  lemma {:induction false} WithKeyInsert<T>(x: T, s: seq<T>, key: T -> int, k: int)
    requires SortedBy(s, key)
    ensures WithKey(InsertBy(x, s, key), key, k) ==
            WithKey(s, key, k) + (if key(x) == k then [x] else [])
    decreases |s|
  {
    var r := InsertBy(x, s, key);
    if |s| == 0 {
    } else if key(x) < key(s[0]) {
      assert r[0] == x && r[1..] == s;
      if key(x) == k {
        assert forall i :: 0 <= i < |s| ==> key(s[i]) > k by {
          assert forall i :: 0 <= i < |s| ==> key(s[0]) <= key(s[i]);
        }
        WithKeyAbove(s, key, k);
      }
    } else {
      var t := InsertBy(x, s[1..], key);
      assert r[0] == s[0] && r[1..] == t;
      assert SortedBy(s[1..], key);
      WithKeyInsert(x, s[1..], key, k);
    }
  }

  /** Stability: elements with equal keys keep their relative order. */
  lemma {:induction false} SortByStable<T>(s: seq<T>, key: T -> int, k: int)
    ensures WithKey(SortBy(s, key), key, k) == WithKey(s, key, k)
    decreases |s|
  {
    if |s| > 0 {
      var init := s[..|s| - 1];
      var last := s[|s| - 1];
      SortByStable(init, key, k);
      WithKeyInsert(last, SortBy(init, key), key, k);
      SortByLast(s, key);
      InitLast(s);
      WithKeyConcat(init, [last], key, k);
      assert WithKey([last], key, k) == (if key(last) == k then [last] else []);
    }
  }

  /** Sorting an already sorted sequence changes nothing. */
  lemma {:induction false} SortBySorted<T>(s: seq<T>, key: T -> int)
    requires SortedBy(s, key)
    ensures SortBy(s, key) == s
    decreases |s|
  {
    if |s| > 0 {
      var init, last := s[..|s| - 1], s[|s| - 1];
      SortByLast(s, key);
      SortBySorted(init, key);
      InsertLast(last, init, key);
      InitLast(s);
    }
  }

  /** A non-empty sequence is its initial part followed by its last element. */
  lemma InitLast<T>(s: seq<T>)
    requires |s| > 0
    ensures s == s[..|s| - 1] + [s[|s| - 1]]
  {
  }

  /** Sorting places the last element into the sorted rest. */
  lemma SortByLast<T>(s: seq<T>, key: T -> int)
    requires |s| > 0
    ensures SortBy(s, key) == InsertBy(s[|s| - 1], SortBy(s[..|s| - 1], key), key)
  {
  }

  lemma {:induction false} InsertLast<T>(x: T, s: seq<T>, key: T -> int)
    requires forall i :: 0 <= i < |s| ==> key(s[i]) <= key(x)
    ensures InsertBy(x, s, key) == s + [x]
    decreases |s|
  {
    if |s| > 0 {
      InsertLast(x, s[1..], key);
      assert s == [s[0]] + s[1..];
    }
  }

  /** Filtering then sorting keeps exactly the kept elements, and elements with equal keys
      stay in input order. */
  lemma SelectSorted<T>(s: seq<T>, keep: T -> bool, key: T -> int)
    ensures forall i :: 0 <= i < |SortBy(Filter(s, keep), key)| ==>
      SortBy(Filter(s, keep), key)[i] in s && keep(SortBy(Filter(s, keep), key)[i])
    ensures forall i :: 0 <= i < |s| && keep(s[i]) ==> s[i] in SortBy(Filter(s, keep), key)
    ensures |SortBy(Filter(s, keep), key)| == |Filter(s, keep)|
    ensures forall k :: WithKey(SortBy(Filter(s, keep), key), key, k) == WithKey(Filter(s, keep), key, k)
  {
    var f := Filter(s, keep);
    var r := SortBy(f, key);
    assert |r| == |multiset(r)| == |multiset(f)| == |f|;
    forall i | 0 <= i < |r|
      ensures r[i] in s && keep(r[i])
    {
      assert r[i] in multiset(f);
    }
    forall i | 0 <= i < |s| && keep(s[i])
      ensures s[i] in r
    {
      assert s[i] in multiset(r);
    }
    forall k
      ensures WithKey(r, key, k) == WithKey(f, key, k)
    {
      SortByStable(f, key, k);
    }
  }

  /** `stream().map(f).toList()` where `f` may throw: the results in order, or the first
      element's exception. */
  function MapAll<A, B, E(==)>(xs: seq<A>, f: A -> Wrappers.Result<B, E>): (r: Wrappers.Result<seq<B>, E>)
    ensures r.Success? <==> forall i :: 0 <= i < |xs| ==> f(xs[i]).Success?
    ensures r.Success? ==> |r.value| == |xs| && forall i :: 0 <= i < |xs| ==> r.value[i] == f(xs[i]).value
    ensures r.Failure? ==> exists i :: 0 <= i < |xs| && f(xs[i]).Failure? && f(xs[i]).error == r.error
    decreases |xs|
  {
    if |xs| == 0 then Wrappers.Success([])
    else
      var head := f(xs[0]);
      var tail := MapAll(xs[1..], f);
      assert forall i :: 1 <= i < |xs| ==> xs[i] == xs[1..][i - 1];
      if head.Failure? then Wrappers.Failure(head.error)
      else if tail.Failure? then
        var i :| 0 <= i < |xs[1..]| && f(xs[1..][i]).Failure? && f(xs[1..][i]).error == tail.error;
        assert f(xs[i + 1]).Failure?;
        Wrappers.Failure(tail.error)
      else Wrappers.Success([head.value] + tail.value)
  }

  /** `stream().map(value).min(...)`: the least value, or None for an empty sequence. */
  function MinBy<T>(s: seq<T>, value: T -> int): (r: Wrappers.Option<int>)
    ensures r.None? <==> |s| == 0
    ensures r.Some? ==> (forall i :: 0 <= i < |s| ==> r.value <= value(s[i]))
    ensures r.Some? ==> exists i :: 0 <= i < |s| && r.value == value(s[i])
  {
    if |s| == 0 then Wrappers.None
    else
      var rest := MinBy(s[1..], value);
      if rest.None? || value(s[0]) <= rest.value then
        Wrappers.Some(value(s[0]))
      else
        var i :| 0 <= i < |s[1..]| && rest.value == value(s[1..][i]);
        assert rest.value == value(s[i + 1]);
        rest
  }
}
