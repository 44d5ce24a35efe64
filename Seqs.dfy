/**
  Sequence operations the engine's LINQ pipelines are built from: `Where` (Filter), `Select`
  (Map) and the stable `OrderBy` (SortBy), with the facts the engine relies on.
*/
module Seqs {

  /** `Where`: the elements satisfying `p`, in their original order. */
  function Filter<T>(s: seq<T>, p: T -> bool): (r: seq<T>)
    ensures |r| <= |s|
    ensures forall x :: x in r ==> x in s && p(x)
  {
    if s == [] then [] else (if p(s[0]) then [s[0]] else []) + Filter(s[1..], p)
  }

  /** `Select`. */
  function Map<T, U>(s: seq<T>, f: T -> U): (r: seq<U>)
    ensures |r| == |s|
    ensures forall i :: 0 <= i < |s| ==> r[i] == f(s[i])
  {
    if s == [] then [] else [f(s[0])] + Map(s[1..], f)
  }

  /** Filtering a sequence built from the back, one element at a time. */
  lemma {:induction false} FilterSnoc<T>(s: seq<T>, x: T, p: T -> bool)
    ensures Filter(s + [x], p) == Filter(s, p) + (if p(x) then [x] else [])
  {
    if s == [] {
      assert s + [x] == [x];
    } else {
      assert (s + [x])[1..] == s[1..] + [x];
      FilterSnoc(s[1..], x, p);
    }
  }

  /** Every element of `s` that satisfies `p` survives the filter. */
  lemma {:induction false} FilterKeeps<T>(s: seq<T>, p: T -> bool, x: T)
    requires x in s && p(x)
    ensures x in Filter(s, p)
  {
    if s[0] != x {
      FilterKeeps(s[1..], p, x);
    }
  }

  /** Two predicates that agree on `s` filter it the same way. */
  lemma {:induction false} FilterCongruent<T>(s: seq<T>, p: T -> bool, q: T -> bool)
    requires forall x :: x in s ==> p(x) == q(x)
    ensures Filter(s, p) == Filter(s, q)
  {
    if s != [] {
      FilterCongruent(s[1..], p, q);
    }
  }

  /** Filtering by `p` and by its negation splits `s` into two parts that together hold
      every element exactly as often as `s` does. */
  lemma {:induction false} FilterPartition<T>(s: seq<T>, p: T -> bool, q: T -> bool)
    requires forall x :: q(x) == !p(x)
    ensures multiset(Filter(s, p)) + multiset(Filter(s, q)) == multiset(s)
  {
    if s != [] {
      FilterPartition(s[1..], p, q);
      FilterPartitionHead(s, p, q);
    }
  }

  /** The step of `FilterPartition`: the head lands in exactly one of the two parts. */
  lemma FilterPartitionHead<T>(s: seq<T>, p: T -> bool, q: T -> bool)
    requires s != [] && q(s[0]) == !p(s[0])
    requires multiset(Filter(s[1..], p)) + multiset(Filter(s[1..], q)) == multiset(s[1..])
    ensures multiset(Filter(s, p)) + multiset(Filter(s, q)) == multiset(s)
  {
    assert s == [s[0]] + s[1..];
    if p(s[0]) {
      assert Filter(s, p) == [s[0]] + Filter(s[1..], p);
      assert Filter(s, q) == Filter(s[1..], q);
      AddToOnePart(s[0], Filter(s[1..], p), Filter(s[1..], q), s[1..]);
    } else {
      assert Filter(s, p) == Filter(s[1..], p);
      assert Filter(s, q) == [s[0]] + Filter(s[1..], q);
      AddToOnePart(s[0], Filter(s[1..], q), Filter(s[1..], p), s[1..]);
    }
  }

  lemma AddToOnePart<T>(x: T, a: seq<T>, b: seq<T>, whole: seq<T>)
    requires multiset(a) + multiset(b) == multiset(whole)
    ensures multiset([x] + a) + multiset(b) == multiset([x] + whole)
    ensures multiset(b) + multiset([x] + a) == multiset([x] + whole)
  {
  }

  /** Filtering commutes with mapping when the predicates agree through the map. */
  lemma {:induction false} MapFilter<T, U>(s: seq<T>, f: T -> U, p: T -> bool, q: U -> bool)
    requires forall x :: x in s ==> p(x) == q(f(x))
    ensures Map(Filter(s, p), f) == Filter(Map(s, f), q)
  {
    if s != [] {
      MapFilter(s[1..], f, p, q);
      assert Map(s, f)[1..] == Map(s[1..], f);
      var head := if p(s[0]) then [s[0]] else [];
      MapConcat(head, Filter(s[1..], p), f);
    }
  }

  lemma {:induction false} MapConcat<T, U>(a: seq<T>, b: seq<T>, f: T -> U)
    ensures Map(a + b, f) == Map(a, f) + Map(b, f)
  {
    if a != [] {
      assert (a + b)[1..] == a[1..] + b;
      MapConcat(a[1..], b, f);
    }
  }

  /** Non-decreasing by `key`. */
  ghost predicate SortedBy<T>(s: seq<T>, key: T -> int) {
    forall i, j :: 0 <= i < j < |s| ==> key(s[i]) <= key(s[j])
  }

  /** Insertion into a list sorted by `key`, after every element whose key is not greater. */
  function Insert<T>(x: T, s: seq<T>, key: T -> int): seq<T> {
    if s == [] then [x]
    else if key(x) < key(s[0]) then [x] + s
    else [s[0]] + Insert(x, s[1..], key)
  }

  /** `OrderBy(key)`: a stable sort, written as insertion of each element in turn. */
  function SortBy<T>(s: seq<T>, key: T -> int): seq<T> {
    if s == [] then [] else Insert(s[|s| - 1], SortBy(s[..|s| - 1], key), key)
  }

  lemma {:induction false} InsertPermutes<T>(x: T, s: seq<T>, key: T -> int)
    ensures multiset(Insert(x, s, key)) == multiset(s) + multiset{x}
  {
    if s != [] && key(x) >= key(s[0]) {
      InsertPermutes(x, s[1..], key);
      assert s == [s[0]] + s[1..];
    }
  }

  lemma {:induction false} InsertSorted<T>(x: T, s: seq<T>, key: T -> int)
    requires SortedBy(s, key)
    ensures SortedBy(Insert(x, s, key), key)
    ensures multiset(Insert(x, s, key)) == multiset(s) + multiset{x}
  {
    InsertPermutes(x, s, key);
    if s != [] && key(x) >= key(s[0]) {
      var r := Insert(x, s[1..], key);
      InsertSorted(x, s[1..], key);
      InsertPermutes(x, s[1..], key);
      forall j | 0 <= j < |r| ensures key(s[0]) <= key(r[j]) {
        assert r[j] in multiset(r);
        assert r[j] == x || r[j] in multiset(s[1..]);
      }
      assert Insert(x, s, key) == [s[0]] + r;
    }
  }

  /** `SortBy` orders its input and is a permutation of it. */
  lemma {:induction false} SortByCorrect<T>(s: seq<T>, key: T -> int)
    ensures SortedBy(SortBy(s, key), key)
    ensures multiset(SortBy(s, key)) == multiset(s)
  {
    if s != [] {
      var init := s[..|s| - 1];
      SortByCorrect(init, key);
      InsertSorted(s[|s| - 1], SortBy(init, key), key);
      assert s == init + [s[|s| - 1]];
    }
  }

  /** In a sorted list whose first key exceeds `k`, no element has key `k`. */
  lemma {:induction false} NoKeyBelowHead<T>(s: seq<T>, key: T -> int, k: int)
    requires SortedBy(s, key) && s != [] && k < key(s[0])
    ensures Filter(s, (y: T) => key(y) == k) == []
  {
    if |s| > 1 {
      NoKeyBelowHead(s[1..], key, k);
    }
  }

  lemma {:induction false} InsertStable<T>(x: T, s: seq<T>, key: T -> int, k: int)
    requires SortedBy(s, key)
    ensures Filter(Insert(x, s, key), (y: T) => key(y) == k)
         == Filter(s, (y: T) => key(y) == k) + (if key(x) == k then [x] else [])
  {
    var eq := (y: T) => key(y) == k;
    if s == [] {
      FilterCons(x, [], eq);
    } else if key(x) < key(s[0]) {
      FilterCons(x, s, eq);
      if key(x) == k {
        NoKeyBelowHead(s, key, k);
      }
    } else {
      var t := s[1..];
      assert SortedBy(t, key) by {
        forall i, j | 0 <= i < j < |t| ensures key(t[i]) <= key(t[j]) {
          assert t[i] == s[i + 1] && t[j] == s[j + 1];
        }
      }
      var head := if eq(s[0]) then [s[0]] else [];
      var last := if key(x) == k then [x] else [];
      calc {
        Filter(Insert(x, s, key), eq);
        Filter([s[0]] + Insert(x, t, key), eq);
        { FilterCons(s[0], Insert(x, t, key), eq); }
        head + Filter(Insert(x, t, key), eq);
        { InsertStable(x, t, key, k); }
        head + (Filter(t, eq) + last);
        (head + Filter(t, eq)) + last;
        { FilterCons(s[0], t, eq); assert s == [s[0]] + t; }
        Filter(s, eq) + last;
      }
    }
  }

  /** Filtering a sequence with a known head. */
  lemma FilterCons<T>(h: T, t: seq<T>, p: T -> bool)
    ensures Filter([h] + t, p) == (if p(h) then [h] else []) + Filter(t, p)
  {
    assert ([h] + t)[1..] == t;
  }

  /** Stability: among elements with equal keys, `SortBy` keeps the input order. */
  lemma {:induction false} SortByStable<T>(s: seq<T>, key: T -> int, k: int)
    ensures Filter(SortBy(s, key), (y: T) => key(y) == k) == Filter(s, (y: T) => key(y) == k)
  {
    if s != [] {
      var init, x := s[..|s| - 1], s[|s| - 1];
      var eq := (y: T) => key(y) == k;
      calc {
        Filter(SortBy(s, key), eq);
        Filter(Insert(x, SortBy(init, key), key), eq);
        { SortByCorrect(init, key); InsertStable(x, SortBy(init, key), key, k); }
        Filter(SortBy(init, key), eq) + (if key(x) == k then [x] else []);
        { SortByStable(init, key, k); }
        Filter(init, eq) + (if key(x) == k then [x] else []);
        { FilterSnoc(init, x, eq); assert s == init + [x]; }
        Filter(s, eq);
      }
    }
  }

  /** Stability, for any predicate that selects exactly the elements with key `k`. */
  lemma SortByStableFor<T>(s: seq<T>, key: T -> int, k: int, p: T -> bool)
    requires forall y :: p(y) == (key(y) == k)
    ensures Filter(SortBy(s, key), p) == Filter(s, p)
  {
    SortByStable(s, key, k);
    var sorted := SortBy(s, key);
    forall y | y in sorted ensures y in s {
      SortByElements(s, key, y);
    }
    FilterCongruent(sorted, (y: T) => key(y) == k, p);
    FilterCongruent(s, (y: T) => key(y) == k, p);
  }

  lemma {:induction false} InsertMap<T, U>(x: T, s: seq<T>, k1: T -> int, f: T -> U, k2: U -> int)
    requires k1(x) == k2(f(x))
    requires forall y :: y in s ==> k1(y) == k2(f(y))
    ensures Map(Insert(x, s, k1), f) == Insert(f(x), Map(s, f), k2)
  {
    if s != [] {
      assert Map(s, f)[0] == f(s[0]);
      assert Map(s, f)[1..] == Map(s[1..], f);
      if k1(x) >= k1(s[0]) {
        InsertMap(x, s[1..], k1, f, k2);
      }
    }
  }

  /** Every element of a sorted list comes from the input. */
  lemma SortByElements<T>(s: seq<T>, key: T -> int, y: T)
    requires y in SortBy(s, key)
    ensures y in s
  {
    SortByCorrect(s, key);
    assert y in multiset(SortBy(s, key));
  }

  /** Sorting commutes with a map that carries the sort key along. */
  lemma {:induction false} SortByMap<T, U>(s: seq<T>, k1: T -> int, f: T -> U, k2: U -> int)
    requires forall y :: y in s ==> k1(y) == k2(f(y))
    ensures Map(SortBy(s, k1), f) == SortBy(Map(s, f), k2)
  {
    if s != [] {
      var init, x := s[..|s| - 1], s[|s| - 1];
      assert forall y :: y in init ==> y in s;
      SortByMap(init, k1, f, k2);
      var sorted := SortBy(init, k1);
      forall y | y in sorted ensures k1(y) == k2(f(y)) {
        SortByElements(init, k1, y);
      }
      InsertMap(x, sorted, k1, f, k2);
      var ms := Map(s, f);
      assert ms[..|s| - 1] == Map(init, f);
      assert ms[|s| - 1] == f(x);
      calc {
        SortBy(ms, k2);
        Insert(ms[|ms| - 1], SortBy(ms[..|ms| - 1], k2), k2);
        Insert(f(x), SortBy(Map(init, f), k2), k2);
        Insert(f(x), Map(sorted, f), k2);
        Map(Insert(x, sorted, k1), f);
      }
    }
  }
}
