/** Sequence utilities standing for the JavaScript collection idioms the core
    relies on: a `Set` read back with `Array.from` (distinct elements in
    insertion order), occurrence counts, and the stable `Array.prototype.sort`. */
module Seqs {

  /** No element occurs twice. */
  predicate NoDup<T(==)>(s: seq<T>) {
    forall i, j :: 0 <= i < j < |s| ==> s[i] != s[j]
  }

  /** `Array.from(new Set(s))`: the distinct elements of `s`, each at the
      place of its first occurrence. Defined by adding the elements one at a
      time, as a `Set` is filled. */
  function Dedup<T(==)>(s: seq<T>): seq<T>
  {
    if s == [] then []
    else
      var d := Dedup(s[..|s| - 1]);
      if s[|s| - 1] in d then d else d + [s[|s| - 1]]
  }

  /** The set keeps every element once and loses none. */
  lemma {:induction false} DedupMembers<T>(s: seq<T>)
    ensures NoDup(Dedup(s))
    ensures forall x :: x in Dedup(s) <==> x in s
  {
    if s != [] {
      DedupMembers(s[..|s| - 1]);
      assert s == s[..|s| - 1] + [s[|s| - 1]];
    }
  }

  /** Insertion order: adding more elements never reorders the ones already
      in the set, so `Dedup(s)` is a prefix of `Dedup(s + t)`. */
  lemma {:induction false} DedupPrefix<T>(s: seq<T>, t: seq<T>)
    ensures Dedup(s) <= Dedup(s + t)
  {
    if t != [] {
      var u := s + t;
      assert u[..|u| - 1] == s + t[..|t| - 1];
      DedupPrefix(s, t[..|t| - 1]);
    } else {
      assert s + t == s;
    }
  }

  /** A sequence without duplicates is its own set. */
  lemma {:induction false} DedupOfNoDup<T>(s: seq<T>)
    requires NoDup(s)
    ensures Dedup(s) == s
  {
    if s != [] {
      var p := s[..|s| - 1];
      DedupOfNoDup(p);
      assert s[|s| - 1] !in p;
      assert p + [s[|s| - 1]] == s;
    }
  }

  /** Number of occurrences of `x` in `s`. */
  function Count<T(==)>(s: seq<T>, x: T): nat
  {
    if s == [] then 0
    else Count(s[..|s| - 1], x) + (if s[|s| - 1] == x then 1 else 0)
  }

  lemma {:induction false} CountPositive<T>(s: seq<T>, x: T)
    ensures Count(s, x) > 0 <==> x in s
  {
    if s != [] {
      CountPositive(s[..|s| - 1], x);
      assert s == s[..|s| - 1] + [s[|s| - 1]];
    }
  }

  /** Sum of a sequence of integers. */
  function Sum(s: seq<int>): int
  {
    if s == [] then 0 else Sum(s[..|s| - 1]) + s[|s| - 1]
  }

  /** Incrementing one element raises the sum by one. */
  lemma {:induction false} SumBump(s: seq<int>, k: nat)
    requires k < |s|
    ensures Sum(s[k := s[k] + 1]) == Sum(s) + 1
  {
    var t := s[k := s[k] + 1];
    if k < |s| - 1 {
      assert t[..|t| - 1] == s[..|s| - 1][k := s[k] + 1];
      SumBump(s[..|s| - 1], k);
    } else {
      assert t[..|t| - 1] == s[..|s| - 1];
    }
  }

  function Min(a: int, b: int): int { if a <= b then a else b }

  /** Non-increasing in `key`. */
  predicate SortedDesc<T>(s: seq<T>, key: T -> int) {
    forall i, j :: 0 <= i < j < |s| ==> key(s[i]) >= key(s[j])
  }

  /** Places `x` before the first element whose key is not larger. */
  function InsertDesc<T>(x: T, s: seq<T>, key: T -> int): seq<T>
  {
    if s == [] || key(s[0]) <= key(x) then [x] + s
    else [s[0]] + InsertDesc(x, s[1..], key)
  }

  /** `s.sort((a, b) => key(b) - key(a))`: sorted by decreasing key; the
      JavaScript sort is stable, and so is this insertion sort. */
  function SortDesc<T>(s: seq<T>, key: T -> int): seq<T>
  {
    if s == [] then [] else InsertDesc(s[0], SortDesc(s[1..], key), key)
  }

  /** The elements of `s` whose key is `v`, in their order in `s`. */
  function WithKey<T>(s: seq<T>, key: T -> int, v: int): seq<T>
  {
    if s == [] then []
    else (if key(s[0]) == v then [s[0]] else []) + WithKey(s[1..], key, v)
  }

  lemma {:induction false} InsertDescPerm<T>(x: T, s: seq<T>, key: T -> int)
    ensures multiset(InsertDesc(x, s, key)) == multiset(s) + multiset{x}
  {
    if s != [] && key(s[0]) > key(x) {
      InsertDescPerm(x, s[1..], key);
      assert s == [s[0]] + s[1..];
    }
  }

  /** The head of a sorted sequence bounds every later element. */
  lemma HeadBound<T>(s: seq<T>, key: T -> int)
    requires s != [] && SortedDesc(s, key)
    ensures forall y :: y in s[1..] ==> key(s[0]) >= key(y)
  {
    forall y | y in s[1..] ensures key(s[0]) >= key(y) {
      var j :| 0 <= j < |s[1..]| && s[1..][j] == y;
      assert s[j + 1] == y;
    }
  }

  /** A head bounding a sorted tail gives a sorted sequence. */
  lemma ConsSorted<T>(h: T, r: seq<T>, key: T -> int)
    requires SortedDesc(r, key) && forall y :: y in r ==> key(h) >= key(y)
    ensures SortedDesc([h] + r, key)
  {
    var res := [h] + r;
    forall i, j | 0 <= i < j < |res| ensures key(res[i]) >= key(res[j]) {
      assert res[j] == r[j - 1];
      if i > 0 {
        assert res[i] == r[i - 1];
      }
    }
  }

  lemma {:induction false} InsertDescSorted<T>(x: T, s: seq<T>, key: T -> int)
    requires SortedDesc(s, key)
    ensures SortedDesc(InsertDesc(x, s, key), key)
  {
    if s == [] || key(s[0]) <= key(x) {
      HeadBoundInsert(x, s, key);
    } else {
      var r := InsertDesc(x, s[1..], key);
      assert SortedDesc(s[1..], key);
      InsertDescSorted(x, s[1..], key);
      InsertDescPerm(x, s[1..], key);
      HeadBound(s, key);
      forall y | y in r ensures key(s[0]) >= key(y) {
        assert y in multiset(r);
      }
      ConsSorted(s[0], r, key);
    }
  }

  lemma HeadBoundInsert<T>(x: T, s: seq<T>, key: T -> int)
    requires SortedDesc(s, key) && (s == [] || key(s[0]) <= key(x))
    ensures SortedDesc([x] + s, key)
  {
    if s != [] {
      HeadBound(s, key);
    }
    ConsSorted(x, s, key);
  }

  /** Inserting into a sorted sequence keeps it sorted and adds `x`. */
  lemma InsertDescProps<T>(x: T, s: seq<T>, key: T -> int)
    requires SortedDesc(s, key)
    ensures SortedDesc(InsertDesc(x, s, key), key)
    ensures multiset(InsertDesc(x, s, key)) == multiset(s) + multiset{x}
  {
    InsertDescSorted(x, s, key);
    InsertDescPerm(x, s, key);
  }

  /** One unfolding of `WithKey` on a sequence built by prepending. */
  lemma WithKeyCons<T>(h: T, t: seq<T>, key: T -> int, v: int)
    ensures WithKey([h] + t, key, v) == (if key(h) == v then [h] else []) + WithKey(t, key, v)
  {
    assert ([h] + t)[1..] == t;
  }

  lemma {:induction false} InsertDescWithKey<T>(x: T, s: seq<T>, key: T -> int, v: int)
    ensures WithKey(InsertDesc(x, s, key), key, v)
         == (if key(x) == v then [x] else []) + WithKey(s, key, v)
  {
    if s == [] || key(s[0]) <= key(x) {
      WithKeyCons(x, s, key, v);
    } else {
      InsertDescWithKey(x, s[1..], key, v);
      InsertDescWithKeyDeeper(x, s, key, v);
    }
  }

  /** The step of `InsertDescWithKey` where `x` goes below the head of `s`:
      the head outranks `x`, so at most one of the two has key `v`. */
  lemma InsertDescWithKeyDeeper<T>(x: T, s: seq<T>, key: T -> int, v: int)
    requires s != [] && key(s[0]) > key(x)
    requires WithKey(InsertDesc(x, s[1..], key), key, v)
          == (if key(x) == v then [x] else []) + WithKey(s[1..], key, v)
    ensures WithKey(InsertDesc(x, s, key), key, v)
         == (if key(x) == v then [x] else []) + WithKey(s, key, v)
  {
    var t := InsertDesc(x, s[1..], key);
    assert InsertDesc(x, s, key) == [s[0]] + t;
    WithKeyCons(s[0], t, key, v);
    assert s == [s[0]] + s[1..];
    WithKeyCons(s[0], s[1..], key, v);
    if key(x) == v {
      assert key(s[0]) != v;
    } else {
      assert key(x) != v;
    }
  }

  /** The sort returns a permutation of its input, in non-increasing key
      order, and keeps the input order among elements with equal keys. */
  lemma {:induction false} SortDescProps<T>(s: seq<T>, key: T -> int)
    ensures SortedDesc(SortDesc(s, key), key)
    ensures multiset(SortDesc(s, key)) == multiset(s)
    ensures forall v :: WithKey(SortDesc(s, key), key, v) == WithKey(s, key, v)
  {
    if s != [] {
      SortDescProps(s[1..], key);
      InsertDescProps(s[0], SortDesc(s[1..], key), key);
      assert s == [s[0]] + s[1..];
      forall v ensures WithKey(SortDesc(s, key), key, v) == WithKey(s, key, v) {
        InsertDescWithKey(s[0], SortDesc(s[1..], key), key, v);
      }
    }
  }

  /** The first `k` elements of the sorted sequence: as many as there are,
      up to `k`, in non-increasing order, taken from the input, and no left-out
      element has a larger key than any kept one. */
  lemma TopOfSorted<T>(s: seq<T>, key: T -> int, k: nat)
    ensures var r := SortDesc(s, key);
            var top := r[..Min(k, |r|)];
            && |top| == Min(k, |s|)
            && SortedDesc(top, key)
            && multiset(top) <= multiset(s)
            && forall i, j :: 0 <= i < |top| <= j < |r| ==> key(r[j]) <= key(top[i])
  {
    var r := SortDesc(s, key);
    SortDescProps(s, key);
    assert |r| == |s| by { assert |multiset(r)| == |multiset(s)|; }
    var top := r[..Min(k, |r|)];
    assert r == top + r[Min(k, |r|)..];
    assert multiset(r) == multiset(top) + multiset(r[Min(k, |r|)..]);
  }
}
