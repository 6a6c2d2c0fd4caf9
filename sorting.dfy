/**
 * The stable sort `Collections.sort` performs, as an insertion sort, and
 * the facts that make it a faithful stand-in for any stable sort: its
 * result is ordered, a permutation, keeps the input order among equal
 * keys, and is the only sequence with those three properties.
 */
module Sorting {

  /** Ordered by key. */
  predicate Sorted<T>(s: seq<T>, key: T -> int)
  {
    forall i, j :: 0 <= i < j < |s| ==> key(s[i]) <= key(s[j])
  }

  /** Places `x` before the first element whose key is at least its own. */
  function Insert<T>(x: T, s: seq<T>, key: T -> int): seq<T>
  {
    if s == [] then [x]
    else if key(x) <= key(s[0]) then [x] + s
    else [s[0]] + Insert(x, s[1..], key)
  }

  /** Sorts by key, each element going in front of the equal keys that follow it in `s`. */
  function SortBy<T>(s: seq<T>, key: T -> int): seq<T>
  {
    if s == [] then [] else Insert(s[0], SortBy(s[1..], key), key)
  }

  /** The elements of `s` whose key is `p`, in their order in `s`. */
  function Filter<T>(s: seq<T>, key: T -> int, p: int): seq<T>
  {
    if s == [] then []
    else if key(s[0]) == p then [s[0]] + Filter(s[1..], key, p)
    else Filter(s[1..], key, p)
  }

  lemma {:induction false} InsertPermutes<T>(x: T, s: seq<T>, key: T -> int)
    ensures multiset(Insert(x, s, key)) == multiset(s) + multiset{x}
    ensures |Insert(x, s, key)| == |s| + 1
  {
    if s != [] && key(x) > key(s[0]) {
      InsertPermutes(x, s[1..], key);
      assert s == [s[0]] + s[1..];
    }
  }

  lemma {:induction false} InsertKeeps<T>(x: T, s: seq<T>, key: T -> int)
    requires Sorted(s, key)
    ensures Sorted(Insert(x, s, key), key)
    ensures multiset(Insert(x, s, key)) == multiset(s) + multiset{x}
    ensures |Insert(x, s, key)| == |s| + 1
  {
    InsertPermutes(x, s, key);
    if s != [] && key(x) > key(s[0]) {
      var rest := s[1..];
      InsertKeeps(x, rest, key);
      var r := Insert(x, rest, key);
      forall i | 0 <= i < |r|
        ensures key(s[0]) <= key(r[i])
      {
        assert r[i] in multiset(r);
        assert r[i] in multiset(rest) + multiset{x};
        if r[i] != x {
          assert r[i] in rest;
          var j :| 0 <= j < |rest| && rest[j] == r[i];
          assert rest[j] == s[j + 1];
        }
      }
      assert Insert(x, s, key) == [s[0]] + r;
    }
  }

  /** The sort gives an ordered permutation of its input. */
  lemma {:induction false} SortByIsOrderedPermutation<T>(s: seq<T>, key: T -> int)
    ensures Sorted(SortBy(s, key), key)
    ensures multiset(SortBy(s, key)) == multiset(s)
    ensures |SortBy(s, key)| == |s|
  {
    if s != [] {
      SortByIsOrderedPermutation(s[1..], key);
      InsertKeeps(s[0], SortBy(s[1..], key), key);
      assert s == [s[0]] + s[1..];
    }
  }

  lemma {:induction false} FilterOfInsert<T>(x: T, s: seq<T>, key: T -> int, p: int)
    requires Sorted(s, key)
    ensures Filter(Insert(x, s, key), key, p) == (if key(x) == p then [x] else []) + Filter(s, key, p)
  {
    if s != [] && key(x) > key(s[0]) {
      FilterOfInsert(x, s[1..], key, p);
      if key(x) == p {
        assert key(s[0]) != p;
      }
    } else if s != [] && key(x) == p && key(s[0]) == p {
      assert Insert(x, s, key) == [x] + s;
    }
  }

  /** Stability: among equal keys the sort keeps the input order. */
  lemma {:induction false} SortByIsStable<T>(s: seq<T>, key: T -> int, p: int)
    ensures Filter(SortBy(s, key), key, p) == Filter(s, key, p)
  {
    if s != [] {
      SortByIsStable(s[1..], key, p);
      SortByIsOrderedPermutation(s[1..], key);
      FilterOfInsert(s[0], SortBy(s[1..], key), key, p);
    }
  }

  lemma {:induction false} FilterFirst<T>(s: seq<T>, key: T -> int)
    requires s != []
    ensures Filter(s, key, key(s[0])) == [s[0]] + Filter(s[1..], key, key(s[0]))
  {
  }

  lemma {:induction false} FilterMember<T>(s: seq<T>, key: T -> int, p: int)
    ensures forall e :: e in Filter(s, key, p) ==> e in s && key(e) == p
    ensures forall i :: 0 <= i < |s| && key(s[i]) == p ==> Filter(s, key, p) != []
  {
    if s != [] {
      FilterMember(s[1..], key, p);
      forall i | 0 <= i < |s| && key(s[i]) == p
        ensures Filter(s, key, p) != []
      {
        if i > 0 {
          assert s[1..][i - 1] == s[i];
        }
      }
    }
  }

  lemma {:induction false} FilterOfSmallerKey<T>(s: seq<T>, key: T -> int, p: int)
    requires Sorted(s, key) && s != [] && p != key(s[0])
    ensures Filter(s, key, p) == Filter(s[1..], key, p)
  {
  }

  /**
   * Two ordered sequences with the same elements of each key, in the same
   * order, are equal: a stable sort has exactly one possible result.
   */
  lemma {:induction false} StableOrderIsUnique<T>(a: seq<T>, b: seq<T>, key: T -> int)
    requires Sorted(a, key) && Sorted(b, key)
    requires forall p :: Filter(a, key, p) == Filter(b, key, p)
    ensures a == b
    decreases |a| + |b|
  {
    if a == [] || b == [] {
      if a != [] {
        assert Filter(b, key, key(a[0])) == [];
        FilterFirst(a, key);
      } else if b != [] {
        assert Filter(a, key, key(b[0])) == [];
        FilterFirst(b, key);
      }
    } else {
      var ka, kb := key(a[0]), key(b[0]);
      FilterFirst(a, key);
      FilterFirst(b, key);
      FilterMember(a, key, kb);
      FilterMember(b, key, ka);
      // Some element of b has key ka, so kb <= ka; and symmetrically.
      assert Filter(b, key, ka) != [];
      var eb := Filter(b, key, ka)[0];
      assert eb in Filter(b, key, ka);
      assert eb in b;
      var ib :| 0 <= ib < |b| && b[ib] == eb;
      assert kb <= ka;
      assert Filter(a, key, kb) != [];
      var ea := Filter(a, key, kb)[0];
      assert ea in Filter(a, key, kb);
      assert ea in a;
      var ia :| 0 <= ia < |a| && a[ia] == ea;
      assert ka <= kb;
      assert a[0] == b[0];
      forall p
        ensures Filter(a[1..], key, p) == Filter(b[1..], key, p)
      {
        if p != ka {
          FilterOfSmallerKey(a, key, p);
          FilterOfSmallerKey(b, key, p);
        } else {
          assert Filter(a, key, p)[1..] == Filter(a[1..], key, p);
          assert Filter(b, key, p)[1..] == Filter(b[1..], key, p);
        }
      }
      StableOrderIsUnique(a[1..], b[1..], key);
      assert a == [a[0]] + a[1..] && b == [b[0]] + b[1..];
    }
  }

  /** Any ordered, stable rearrangement of `s` is the one `SortBy` computes. */
  lemma StableSortIsSortBy<T>(s: seq<T>, r: seq<T>, key: T -> int)
    requires Sorted(r, key)
    requires forall p :: Filter(r, key, p) == Filter(s, key, p)
    ensures r == SortBy(s, key)
  {
    SortByIsOrderedPermutation(s, key);
    forall p
      ensures Filter(r, key, p) == Filter(SortBy(s, key), key, p)
    {
      SortByIsStable(s, key, p);
    }
    StableOrderIsUnique(r, SortBy(s, key), key);
  }

  /** No two elements share a key. */
  predicate DistinctKeys<T>(s: seq<T>, key: T -> int)
  {
    forall i, j :: 0 <= i < j < |s| ==> key(s[i]) != key(s[j])
  }

  lemma {:induction false} FilterOfDistinctKeys<T>(s: seq<T>, key: T -> int, p: int)
    requires DistinctKeys(s, key)
    ensures forall x :: x in s && key(x) == p ==> Filter(s, key, p) == [x]
    ensures (forall x :: x in s ==> key(x) != p) ==> Filter(s, key, p) == []
  {
    if s != [] {
      assert DistinctKeys(s[1..], key);
      FilterOfDistinctKeys(s[1..], key, p);
      if key(s[0]) == p {
        assert forall x :: x in s[1..] ==> key(x) != p;
      }
    }
  }

  /**
   * With no two elements sharing a key, the sort does not depend on the
   * order it is given the elements in.
   */
  lemma DistinctKeysSortAlike<T>(a: seq<T>, b: seq<T>, key: T -> int)
    requires DistinctKeys(a, key) && DistinctKeys(b, key)
    requires forall x :: x in a <==> x in b
    ensures SortBy(a, key) == SortBy(b, key)
  {
    SortByIsOrderedPermutation(a, key);
    forall p
      ensures Filter(SortBy(a, key), key, p) == Filter(b, key, p)
    {
      SortByIsStable(a, key, p);
      FilterOfDistinctKeys(a, key, p);
      FilterOfDistinctKeys(b, key, p);
    }
    StableSortIsSortBy(b, SortBy(a, key), key);
  }
}
