/** The list operations the routes and pages use: Array.prototype.filter and
    a database cursor's `.sort({ createdAt: -1 })`. */
module Seqs {
  import opened Common

  /** `s.filter(p)`: the elements satisfying `p`, in their original order. */
  function Filter<T>(s: seq<T>, p: T -> bool): (r: seq<T>)
    ensures |r| <= |s|
    ensures forall i :: 0 <= i < |r| ==> p(r[i])
  {
    if s == [] then []
    else if p(s[0]) then [s[0]] + Filter(s[1..], p)
    else Filter(s[1..], p)
  }

  /** The kept elements are exactly the input's elements that pass. */
  lemma {:induction false} FilterMembers<T>(s: seq<T>, p: T -> bool)
    ensures forall x :: x in Filter(s, p) <==> x in s && p(x)
  {
    if s != [] {
      FilterMembers(s[1..], p);
      assert s == [s[0]] + s[1..];
    }
  }

  /** Filtering keeps a lower bound on a key. */
  lemma {:induction false} FilterAbove<T>(s: seq<T>, p: T -> bool, key: T -> int, bound: int)
    requires forall i :: 0 <= i < |s| ==> bound < key(s[i])
    ensures forall i :: 0 <= i < |Filter(s, p)| ==> bound < key(Filter(s, p)[i])
  {
    if s != [] {
      FilterAbove(s[1..], p, key, bound);
      var rest := Filter(s[1..], p);
      assert forall i :: 0 <= i < |rest| ==> bound < key(rest[i]);
    }
  }

  /** Filtering keeps the input's order: a list ordered by a strictly
      increasing key stays so ordered. */
  lemma {:induction false} FilterKeepsOrder<T>(s: seq<T>, p: T -> bool, key: T -> int)
    requires forall i, j :: 0 <= i < j < |s| ==> key(s[i]) < key(s[j])
    ensures forall i, j :: 0 <= i < j < |Filter(s, p)| ==> key(Filter(s, p)[i]) < key(Filter(s, p)[j])
  {
    if s != [] {
      var t := s[1..];
      FilterKeepsOrder(t, p, key);
      FilterAbove(t, p, key, key(s[0]));
      var rest := Filter(t, p);
      assert forall i, j :: 0 <= i < j < |rest| ==> key(rest[i]) < key(rest[j]);
      assert forall i :: 0 <= i < |rest| ==> key(s[0]) < key(rest[i]);
    }
  }

  /** Filtering distributes over concatenation, so the kept elements stay in
      their original relative order. */
  lemma {:induction false} FilterConcat<T>(a: seq<T>, b: seq<T>, p: T -> bool)
    ensures Filter(a + b, p) == Filter(a, p) + Filter(b, p)
  {
    if a == [] {
      assert a + b == b;
    } else {
      assert (a + b)[1..] == a[1..] + b;
      FilterConcat(a[1..], b, p);
    }
  }

  /** Filtering around one element: the element stays exactly when it
      passes, and the parts on either side are filtered on their own. */
  lemma FilterMiddle<T>(a: seq<T>, x: T, b: seq<T>, p: T -> bool)
    ensures Filter(a + [x] + b, p) == Filter(a, p) + (if p(x) then [x] else []) + Filter(b, p)
  {
    var one := Filter([x], p);
    assert [x][1..] == [];
    assert Filter([x][1..], p) == [];
    assert one == (if p(x) then [x] else []);
    FilterConcat(a, [x], p);
    FilterConcat(a + [x], b, p);
  }

  /** Filtering keeps everything exactly when every element passes. */
  lemma {:induction false} FilterAll<T>(s: seq<T>, p: T -> bool)
    requires forall i :: 0 <= i < |s| ==> p(s[i])
    ensures Filter(s, p) == s
  {
    if s != [] {
      FilterAll(s[1..], p);
    }
  }

  /** Ordered by `key`, largest first. */
  ghost predicate SortedDesc<T>(s: seq<T>, key: T -> int) {
    forall i, j :: 0 <= i < j < |s| ==> key(s[i]) >= key(s[j])
  }

  /** Putting an element no smaller than any other in front keeps the order. */
  lemma SortedCons<T>(h: T, t: seq<T>, key: T -> int)
    requires SortedDesc(t, key)
    requires forall i :: 0 <= i < |t| ==> key(t[i]) <= key(h)
    ensures SortedDesc([h] + t, key)
  {
    var r := [h] + t;
    forall i, j | 0 <= i < j < |r| ensures key(r[i]) >= key(r[j]) {
      assert r[j] == t[j - 1];
      if i > 0 {
        assert r[i] == t[i - 1];
      }
    }
  }

  /** One insertion step of the sort: `x` goes before the first element
      whose key is not larger. */
  function Insert<T>(x: T, s: seq<T>, key: T -> int): (r: seq<T>)
    ensures multiset(r) == multiset(s) + multiset{x}
  {
    if s == [] then [x]
    else if key(x) >= key(s[0]) then [x] + s
    else
      assert s == [s[0]] + s[1..];
      [s[0]] + Insert(x, s[1..], key)
  }

  /** Inserting an element under a bound keeps every key under it. */
  lemma {:induction false} InsertBounded<T>(x: T, s: seq<T>, key: T -> int, bound: int)
    requires key(x) <= bound
    requires forall i :: 0 <= i < |s| ==> key(s[i]) <= bound
    ensures forall i :: 0 <= i < |Insert(x, s, key)| ==> key(Insert(x, s, key)[i]) <= bound
  {
    if s != [] && key(x) < key(s[0]) {
      InsertBounded(x, s[1..], key, bound);
      var tail := Insert(x, s[1..], key);
      assert Insert(x, s, key) == [s[0]] + tail;
    }
  }

  /** Insertion into a list ordered largest first keeps it ordered. */
  lemma {:induction false} InsertSorted<T>(x: T, s: seq<T>, key: T -> int)
    requires SortedDesc(s, key)
    ensures SortedDesc(Insert(x, s, key), key)
  {
    if s == [] {
    } else if key(x) >= key(s[0]) {
      SortedCons(x, s, key);
    } else {
      InsertSorted(x, s[1..], key);
      InsertBounded(x, s[1..], key, key(s[0]));
      SortedCons(s[0], Insert(x, s[1..], key), key);
    }
  }

  /** The cursor's `.sort({ createdAt: -1 })`: the same elements, largest key
      first. */
  function SortDesc<T>(s: seq<T>, key: T -> int): (r: seq<T>)
    ensures SortedDesc(r, key)
    ensures multiset(r) == multiset(s)
  {
    if s == [] then []
    else
      assert s == [s[0]] + s[1..];
      var sorted := SortDesc(s[1..], key);
      InsertSorted(s[0], sorted, key);
      Insert(s[0], sorted, key)
  }

  /** Sorting keeps exactly the elements it was given. */
  lemma SortDescMembers<T>(s: seq<T>, key: T -> int)
    ensures forall x :: x in SortDesc(s, key) <==> x in s
  {
    var r := SortDesc(s, key);
    forall x ensures x in r <==> x in s {
      assert x in r <==> x in multiset(r);
      assert x in s <==> x in multiset(s);
    }
  }

  /** Index `i` holds the first element satisfying `p`. */
  ghost predicate FirstMatch<T>(s: seq<T>, p: T -> bool, i: int) {
    0 <= i < |s| && p(s[i]) && forall j :: 0 <= j < i ==> !p(s[j])
  }

  /** A collection's `findOne(filter)`: the position of the first document,
      in insertion order, that the filter accepts. */
  function FindFirst<T>(s: seq<T>, p: T -> bool): (r: Option<nat>)
    ensures r.Some? ==> FirstMatch(s, p, r.value)
    ensures r.None? <==> forall j :: 0 <= j < |s| ==> !p(s[j])
  {
    if s == [] then None
    else if p(s[0]) then Some(0)
    else match FindFirst(s[1..], p)
      case None => None
      case Some(k) => Some(k + 1)
  }

  /** Filtering a list whose only rejected element is `x` drops just `x`. */
  lemma FilterDropsOnly<T>(a: seq<T>, x: T, b: seq<T>, q: T -> bool)
    requires !q(x)
    requires forall i :: 0 <= i < |a| ==> q(a[i])
    requires forall i :: 0 <= i < |b| ==> q(b[i])
    ensures Filter(a + [x] + b, q) == a + b
  {
    calc {
      Filter(a + [x] + b, q);
      { FilterMiddle(a, x, b, q); }
      Filter(a, q) + [] + Filter(b, q);
      { FilterAll(a, q); FilterAll(b, q); }
      a + [] + b;
      { assert a + [] == a; }
      a + b;
    }
  }

  /** Filtering out the one element that `q` rejects is removing it at its
      position. */
  lemma FilterRemovesOne<T>(s: seq<T>, q: T -> bool, k: int)
    requires 0 <= k < |s| && !q(s[k])
    requires forall j :: 0 <= j < |s| && j != k ==> q(s[j])
    ensures Filter(s, q) == s[..k] + s[k + 1..]
  {
    var before, after := s[..k], s[k + 1..];
    forall i | 0 <= i < |before| ensures q(before[i]) {
      assert before[i] == s[i];
    }
    forall i | 0 <= i < |after| ensures q(after[i]) {
      assert after[i] == s[k + 1 + i];
    }
    FilterDropsOnly(before, s[k], after, q);
    assert before + [s[k]] + after == s;
  }


}
