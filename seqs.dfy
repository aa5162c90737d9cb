/**
 * Generic sequence operations that the store and the views are built from:
 * `Array.prototype.filter`, `reduce((acc, x) => acc + f(x), 0)`, a stable
 * `sort` with a comparator, and the store's id-based `filter`/`map` idioms.
 */
module Seqs {

  /** `a` is obtained from `b` by deleting elements, so it keeps b's order. */
  predicate IsSubsequence<T(==)>(a: seq<T>, b: seq<T>)
    decreases |b|
  {
    a == [] || (b != [] && ((a[0] == b[0] && IsSubsequence(a[1..], b[1..])) || IsSubsequence(a, b[1..])))
  }

  lemma {:induction false} SubsequenceRefl<T>(s: seq<T>)
    ensures IsSubsequence(s, s)
    decreases |s|
  {
    if s != [] {
      SubsequenceRefl(s[1..]);
    }
  }

  // ---------------------------------------------------------------- filter

  /** The elements of `s` that satisfy `p`, in their original order. */
  function Filter<T(!new)>(s: seq<T>, p: T -> bool): (r: seq<T>)
    ensures |r| <= |s|
    ensures forall x :: x in r <==> x in s && p(x)
    ensures IsSubsequence(r, s)
    decreases |s|
  {
    if s == [] then []
    else
      var rest := Filter(s[1..], p);
      if p(s[0]) then
        assert ([s[0]] + rest)[1..] == rest;
        [s[0]] + rest
      else
        rest
  }

  lemma {:induction false} FilterConcat<T(!new)>(a: seq<T>, b: seq<T>, p: T -> bool)
    ensures Filter(a + b, p) == Filter(a, p) + Filter(b, p)
    decreases |a|
  {
    if a == [] {
      assert a + b == b;
    } else {
      assert (a + b)[0] == a[0];
      assert (a + b)[1..] == a[1..] + b;
      FilterConcat(a[1..], b, p);
    }
  }

  /** Filtering with a predicate every element meets changes nothing. */
  lemma {:induction false} FilterAll<T(!new)>(s: seq<T>, p: T -> bool)
    requires forall x :: x in s ==> p(x)
    ensures Filter(s, p) == s
    decreases |s|
  {
    if s != [] {
      assert s == [s[0]] + s[1..];
      FilterAll(s[1..], p);
    }
  }

  /** Filters with predicates that agree everywhere give the same result. */
  lemma {:induction false} FilterSame<T(!new)>(s: seq<T>, p: T -> bool, q: T -> bool)
    requires forall x :: p(x) == q(x)
    ensures Filter(s, p) == Filter(s, q)
    decreases |s|
  {
    if s != [] {
      FilterSame(s[1..], p, q);
    }
  }

  /** Filtering with a predicate no element meets leaves nothing. */
  lemma FilterNone<T(!new)>(s: seq<T>, p: T -> bool)
    requires forall x :: x in s ==> !p(x)
    ensures Filter(s, p) == []
  {
  }

  /** Two filters in a row are one filter with the conjunction. */
  lemma {:induction false} FilterFilter<T(!new)>(s: seq<T>, p: T -> bool, q: T -> bool, pq: T -> bool)
    requires forall x :: pq(x) == (p(x) && q(x))
    ensures Filter(Filter(s, p), q) == Filter(s, pq)
    decreases |s|
  {
    if s != [] {
      FilterFilter(s[1..], p, q, pq);
      var rest := Filter(s[1..], p);
      if p(s[0]) {
        assert ([s[0]] + rest)[0] == s[0];
        assert ([s[0]] + rest)[1..] == rest;
      }
    }
  }

  /** How many elements satisfy `p`, counted independently of `Filter`. */
  function Count<T>(s: seq<T>, p: T -> bool): nat
    decreases |s|
  {
    if s == [] then 0 else (if p(s[0]) then 1 else 0) + Count(s[1..], p)
  }

  lemma {:induction false} FilterCount<T(!new)>(s: seq<T>, p: T -> bool)
    ensures |Filter(s, p)| == Count(s, p)
    decreases |s|
  {
    if s != [] {
      FilterCount(s[1..], p);
    }
  }

  // ---------------------------------------------------------------- sums

  /** `s.reduce((acc, x) => acc + f(x), 0)`: a left fold, so it peels the last element. */
  function SumBy<T>(s: seq<T>, f: T -> int): int
    decreases |s|
  {
    if s == [] then 0 else SumBy(s[..|s| - 1], f) + f(s[|s| - 1])
  }

  lemma {:induction false} SumByConcat<T>(a: seq<T>, b: seq<T>, f: T -> int)
    ensures SumBy(a + b, f) == SumBy(a, f) + SumBy(b, f)
    decreases |b|
  {
    if b == [] {
      assert a + b == a;
    } else {
      var c := a + b;
      assert c[..|c| - 1] == a + b[..|b| - 1];
      assert c[|c| - 1] == b[|b| - 1];
      SumByConcat(a, b[..|b| - 1], f);
    }
  }

  lemma SumBySingle<T>(x: T, f: T -> int)
    ensures SumBy([x], f) == f(x)
  {
    assert [x][..0] == [];
  }

  /** A sum of zero shares is zero. */
  lemma {:induction false} SumByZero<T>(s: seq<T>, f: T -> int)
    requires forall i :: 0 <= i < |s| ==> f(s[i]) == 0
    ensures SumBy(s, f) == 0
    decreases |s|
  {
    if s != [] {
      SumByZero(s[..|s| - 1], f);
    }
  }

  /** Sums are additive in the summand: a split of every element's share splits the total. */
  lemma {:induction false} SumByLinear<T>(s: seq<T>, f: T -> int, g: T -> int, h: T -> int)
    requires forall x :: h(x) == f(x) + g(x)
    ensures SumBy(s, h) == SumBy(s, f) + SumBy(s, g)
    decreases |s|
  {
    if s != [] {
      SumByLinear(s[..|s| - 1], f, g, h);
    }
  }

  /** Two sequences that agree position by position on their summands have the same sum. */
  lemma {:induction false} SumByPointwise<T, U>(a: seq<T>, f: T -> int, b: seq<U>, g: U -> int)
    requires |a| == |b|
    requires forall i :: 0 <= i < |a| ==> f(a[i]) == g(b[i])
    ensures SumBy(a, f) == SumBy(b, g)
    decreases |a|
  {
    if a != [] {
      SumByPointwise(a[..|a| - 1], f, b[..|b| - 1], g);
    }
  }

  /** An element between two pieces adds exactly its share to their sum. */
  lemma SumBySplice<T>(a: seq<T>, x: T, b: seq<T>, f: T -> int)
    ensures SumBy(a + [x] + b, f) == SumBy(a + b, f) + f(x)
  {
    SumByConcat(a + [x], b, f);
    SumByConcat(a, [x], f);
    SumBySingle(x, f);
    SumByConcat(a, b, f);
  }

  /** A sequence is its part before `k`, its element at `k` and its part after; dropping that element drops one copy of it. */
  lemma SplitAt<T>(s: seq<T>, k: nat)
    requires k < |s|
    ensures s == s[..k] + [s[k]] + s[k + 1..]
    ensures multiset(s[..k] + s[k + 1..]) == multiset(s) - multiset{s[k]}
  {
    assert s == s[..k] + [s[k]] + s[k + 1..];
    assert multiset(s) == multiset(s[..k]) + multiset{s[k]} + multiset(s[k + 1..]);
  }

  /** Removing the element at `k` removes exactly its share of the sum. */
  lemma SumByRemove<T>(s: seq<T>, k: nat, f: T -> int)
    requires k < |s|
    ensures SumBy(s, f) == SumBy(s[..k] + s[k + 1..], f) + f(s[k])
  {
    SplitAt(s, k);
    SumBySplice(s[..k], s[k], s[k + 1..], f);
  }

  /** Replacing the element at `k` changes the sum by exactly the difference of the two shares. */
  lemma SumByUpdate<T>(s: seq<T>, k: nat, x: T, f: T -> int)
    requires k < |s|
    ensures SumBy(s[k := x], f) == SumBy(s, f) - f(s[k]) + f(x)
  {
    SumByRemove(s, k, f);
    SumByRemove(s[k := x], k, f);
    assert s[k := x][..k] + s[k := x][k + 1..] == s[..k] + s[k + 1..];
  }

  /** Two permutations of each other stay so when the last element of one and a copy of it in the other are dropped. */
  lemma DropMatching<T>(a: seq<T>, b: seq<T>, k: nat)
    requires a != [] && k < |b| && b[k] == a[|a| - 1]
    requires multiset(a) == multiset(b)
    ensures multiset(a[..|a| - 1]) == multiset(b[..k] + b[k + 1..])
  {
    SplitAt(a, |a| - 1);
    assert a[..|a| - 1] + a[|a|..] == a[..|a| - 1];
    SplitAt(b, k);
  }

  /** A permutation of a non-empty sequence holds a copy of its last element. */
  lemma LastHasMatch<T>(a: seq<T>, b: seq<T>) returns (k: nat)
    requires a != [] && multiset(a) == multiset(b)
    ensures k < |b| && b[k] == a[|a| - 1]
  {
    assert a[|a| - 1] in multiset(a);
    k :| k < |b| && b[k] == a[|a| - 1];
  }

  /** A sum does not depend on the order of the summed elements. */
  lemma {:induction false} SumByPermutation<T>(a: seq<T>, b: seq<T>, f: T -> int)
    requires multiset(a) == multiset(b)
    ensures SumBy(a, f) == SumBy(b, f)
    decreases |a|
  {
    if a == [] {
      assert |multiset(b)| == 0;
    } else {
      var k := LastHasMatch(a, b);
      DropMatching(a, b, k);
      SumByPermutation(a[..|a| - 1], b[..k] + b[k + 1..], f);
      SumByRemove(b, k, f);
    }
  }

  // ---------------------------------------------------------------- sorting

  ghost predicate Total<T(!new)>(le: (T, T) -> bool) {
    forall a, b :: le(a, b) || le(b, a)
  }

  ghost predicate Transitive<T(!new)>(le: (T, T) -> bool) {
    forall a, b, c :: le(a, b) && le(b, c) ==> le(a, c)
  }

  ghost predicate SortedBy<T>(s: seq<T>, le: (T, T) -> bool) {
    forall i, j :: 0 <= i < j < |s| ==> le(s[i], s[j])
  }

  /** Inserts `x` before the first element it may precede; equal elements keep their order. */
  function Insert<T(==)>(x: T, s: seq<T>, le: (T, T) -> bool): (r: seq<T>)
    ensures |r| == |s| + 1
    ensures multiset(r) == multiset(s) + multiset{x}
    decreases |s|
  {
    if s == [] then [x]
    else if le(x, s[0]) then [x] + s
    else
      assert s == [s[0]] + s[1..];
      [s[0]] + Insert(x, s[1..], le)
  }

  /** A stable sort by the comparator `le` (the result of `Array.prototype.sort`). */
  function SortBy<T(==)>(s: seq<T>, le: (T, T) -> bool): (r: seq<T>)
    ensures |r| == |s|
    ensures multiset(r) == multiset(s)
    decreases |s|
  {
    if s == [] then []
    else
      assert s == [s[0]] + s[1..];
      Insert(s[0], SortBy(s[1..], le), le)
  }

  /** A sorted list stays sorted under a head that may precede each of its elements. */
  lemma SortedCons<T>(h: T, t: seq<T>, le: (T, T) -> bool)
    requires SortedBy(t, le)
    requires forall y :: y in t ==> le(h, y)
    ensures SortedBy([h] + t, le)
  {
    var r := [h] + t;
    forall i, j | 0 <= i < j < |r| ensures le(r[i], r[j]) {
      assert r[j] == t[j - 1];
      if i == 0 {
        assert t[j - 1] in t;
      } else {
        assert r[i] == t[i - 1];
      }
    }
  }

  lemma {:induction false} InsertSorted<T(!new)>(x: T, s: seq<T>, le: (T, T) -> bool)
    requires Total(le) && Transitive(le) && SortedBy(s, le)
    ensures SortedBy(Insert(x, s, le), le)
    decreases |s|
  {
    if s == [] {
    } else if le(x, s[0]) {
      forall y | y in s ensures le(x, y) {
        var k :| 0 <= k < |s| && s[k] == y;
        if k > 0 {
          assert le(s[0], s[k]);
        }
      }
      SortedCons(x, s, le);
    } else {
      assert le(s[0], x);
      assert SortedBy(s[1..], le);
      InsertSorted(x, s[1..], le);
      var t := Insert(x, s[1..], le);
      forall y | y in t ensures le(s[0], y) {
        assert y in multiset(t);
        if y != x {
          assert y in multiset(s[1..]);
          var k :| 0 <= k < |s[1..]| && s[1..][k] == y;
          assert s[k + 1] == y;
        }
      }
      SortedCons(s[0], t, le);
    }
  }

  lemma {:induction false} SortSorted<T(!new)>(s: seq<T>, le: (T, T) -> bool)
    requires Total(le) && Transitive(le)
    ensures SortedBy(SortBy(s, le), le)
    decreases |s|
  {
    if s != [] {
      SortSorted(s[1..], le);
      InsertSorted(s[0], SortBy(s[1..], le), le);
    }
  }

  /** No two elements share a key. */
  ghost predicate DistinctKeys<T, K>(s: seq<T>, key: T -> K) {
    forall i, j :: 0 <= i < j < |s| ==> key(s[i]) != key(s[j])
  }

  /** A head whose key no tail element shares, in front of a tail without repeated keys, repeats no key. */
  lemma DistinctCons<T, K>(h: T, t: seq<T>, key: T -> K)
    requires DistinctKeys(t, key)
    requires forall y :: y in t ==> key(y) != key(h)
    ensures DistinctKeys([h] + t, key)
  {
    var r := [h] + t;
    forall i, j | 0 <= i < j < |r| ensures key(r[i]) != key(r[j]) {
      assert r[j] == t[j - 1];
      if i == 0 {
        assert t[j - 1] in t;
      } else {
        assert r[i] == t[i - 1];
      }
    }
  }

  /** In a sequence without repeated keys, no later element shares the first one's key. */
  lemma TailKeysDiffer<T, K>(s: seq<T>, key: T -> K)
    requires s != [] && DistinctKeys(s, key)
    ensures forall y :: y in s[1..] ==> key(y) != key(s[0])
  {
    forall y | y in s[1..] ensures key(y) != key(s[0]) {
      var k :| 0 <= k < |s[1..]| && s[1..][k] == y;
      assert s[k + 1] == y;
    }
  }

  lemma {:induction false} InsertDistinct<T(!new), K>(x: T, s: seq<T>, le: (T, T) -> bool, key: T -> K)
    requires DistinctKeys(s, key)
    requires forall y :: y in s ==> key(y) != key(x)
    ensures DistinctKeys(Insert(x, s, le), key)
    decreases |s|
  {
    if s == [] || le(x, s[0]) {
      DistinctCons(x, s, key);
    } else {
      assert DistinctKeys(s[1..], key);
      InsertDistinct(x, s[1..], le, key);
      var t := Insert(x, s[1..], le);
      TailKeysDiffer(s, key);
      forall y | y in t ensures key(y) != key(s[0]) {
        assert y in multiset(t);
        assert y == x || y in multiset(s[1..]);
      }
      DistinctCons(s[0], t, key);
    }
  }

  /** Sorting cannot create two elements with the same key. */
  lemma {:induction false} SortDistinct<T(!new), K>(s: seq<T>, le: (T, T) -> bool, key: T -> K)
    requires DistinctKeys(s, key)
    ensures DistinctKeys(SortBy(s, le), key)
    decreases |s|
  {
    if s != [] {
      SortDistinct(s[1..], le, key);
      var t := SortBy(s[1..], le);
      forall y | y in t ensures key(y) != key(s[0]) {
        assert y in multiset(t);
        assert y in multiset(s[1..]);
        var k :| 0 <= k < |s[1..]| && s[1..][k] == y;
        assert s[k + 1] == y;
      }
      InsertDistinct(s[0], t, le, key);
    }
  }

  /** Filtering cannot create two elements with the same key. */
  lemma {:induction false} FilterDistinct<T(!new), K>(s: seq<T>, p: T -> bool, key: T -> K)
    requires DistinctKeys(s, key)
    ensures DistinctKeys(Filter(s, p), key)
    decreases |s|
  {
    if s != [] {
      FilterDistinct(s[1..], p, key);
      var rest := Filter(s[1..], p);
      if p(s[0]) {
        var r := [s[0]] + rest;
        forall i, j | 0 <= i < j < |r| ensures key(r[i]) != key(r[j]) {
          if i == 0 {
            assert r[j] == rest[j - 1];
            assert rest[j - 1] in s[1..];
            var k :| 0 <= k < |s[1..]| && s[1..][k] == rest[j - 1];
            assert s[k + 1] == r[j];
          } else {
            assert r[i] == rest[i - 1] && r[j] == rest[j - 1];
          }
        }
      }
    }
  }

  /** One step of `Filter`: the head is kept exactly when it satisfies `p`. */
  lemma FilterStep<T(!new)>(s: seq<T>, p: T -> bool)
    requires s != []
    ensures multiset(Filter(s, p)) == (if p(s[0]) then multiset{s[0]} else multiset{}) + multiset(Filter(s[1..], p))
  {
    if p(s[0]) {
      assert Filter(s, p) == [s[0]] + Filter(s[1..], p);
    }
  }

  /** A filter keeps every copy of a satisfying element and no copy of any other. */
  lemma {:induction false} FilterMultiplicity<T(!new)>(s: seq<T>, p: T -> bool, x: T)
    ensures multiset(Filter(s, p))[x] == if p(x) then multiset(s)[x] else 0
    decreases |s|
  {
    if s != [] {
      FilterMultiplicity(s[1..], p, x);
      FilterStep(s, p);
      assert multiset(s) == multiset{s[0]} + multiset(s[1..]) by {
        assert s == [s[0]] + s[1..];
      }
    }
  }

  /** The head goes to exactly one side of a split. */
  lemma SplitStep<T>(h: T, ph: bool, a: multiset<T>, a': multiset<T>, b: multiset<T>, b': multiset<T>, rest: multiset<T>)
    requires a == (if ph then multiset{h} else multiset{}) + a'
    requires b == (if ph then multiset{} else multiset{h}) + b'
    requires a' + b' == rest
    ensures a + b == multiset{h} + rest
  {
  }

  /** Splitting by a predicate and its negation loses and duplicates nothing. */
  lemma {:induction false} FilterSplit<T(!new)>(s: seq<T>, p: T -> bool, q: T -> bool)
    requires forall x :: q(x) == !p(x)
    ensures multiset(Filter(s, p)) + multiset(Filter(s, q)) == multiset(s)
    decreases |s|
  {
    if s != [] {
      FilterSplit(s[1..], p, q);
      FilterStep(s, p);
      FilterStep(s, q);
      assert q(s[0]) == !p(s[0]);
      SplitStep(s[0], p(s[0]), multiset(Filter(s, p)), multiset(Filter(s[1..], p)),
                multiset(Filter(s, q)), multiset(Filter(s[1..], q)), multiset(s[1..]));
      assert multiset(s) == multiset{s[0]} + multiset(s[1..]) by {
        assert s == [s[0]] + s[1..];
      }
    }
  }

  // ---------------------------------------------------------------- by-id idioms

  /** No element of `s` carries `id`. */
  ghost predicate FreshIn<T(!new)>(id: int, s: seq<T>, key: T -> int) {
    forall x :: x in s ==> key(x) != id
  }

  /** An id is fresh in `s + [x]` exactly when it is fresh in `s` and is not `x`'s key. */
  lemma FreshInAppend<T(!new)>(id: int, s: seq<T>, x: T, key: T -> int)
    ensures FreshIn(id, s + [x], key) <==> FreshIn(id, s, key) && key(x) != id
  {
    assert forall y :: y in s + [x] <==> y in s || y == x;
  }

  /** Two sequences with the same keys position by position have the same fresh ids. */
  lemma FreshInSameKeys<T(!new)>(a: seq<T>, b: seq<T>, key: T -> int)
    requires |a| == |b| && forall i :: 0 <= i < |a| ==> key(a[i]) == key(b[i])
    ensures forall id :: FreshIn(id, a, key) <==> FreshIn(id, b, key)
  {
    forall id ensures FreshIn(id, a, key) <==> FreshIn(id, b, key) {
      if !FreshIn(id, a, key) {
        var x :| x in a && key(x) == id;
        var i :| 0 <= i < |a| && a[i] == x;
        assert b[i] in b;
      }
      if !FreshIn(id, b, key) {
        var x :| x in b && key(x) == id;
        var i :| 0 <= i < |b| && b[i] == x;
        assert a[i] in a;
      }
    }
  }

  function KeyIsNot<T>(key: T -> int, id: int): T -> bool {
    x => key(x) != id
  }

  /** `s.filter(x => x.id !== id)`. */
  function RemoveKey<T(!new)>(s: seq<T>, key: T -> int, id: int): (r: seq<T>)
    ensures forall x :: x in r <==> x in s && key(x) != id
    ensures IsSubsequence(r, s)
    ensures |r| == Count(s, KeyIsNot(key, id))
  {
    FilterCount(s, KeyIsNot(key, id));
    Filter(s, KeyIsNot(key, id))
  }

  /** `s.map(x => x.id === id ? f(x) : x)`. */
  function MapKey<T>(s: seq<T>, key: T -> int, id: int, f: T -> T): seq<T> {
    seq(|s|, i requires 0 <= i < |s| => if key(s[i]) == id then f(s[i]) else s[i])
  }

  /** `s.findIndex(x => x.id === id)`: the first position carrying `id`, or -1. */
  function FindIndex<T(!new)>(s: seq<T>, key: T -> int, id: int): (r: int)
    ensures -1 <= r < |s|
    ensures r >= 0 ==> key(s[r]) == id && forall j :: 0 <= j < r ==> key(s[j]) != id
    ensures r == -1 <==> FreshIn(id, s, key)
    decreases |s|
  {
    if s == [] then -1
    else if key(s[0]) == id then 0
    else
      var r := FindIndex(s[1..], key, id);
      assert forall x :: x in s ==> x == s[0] || x in s[1..];
      if r == -1 then -1 else r + 1
  }

  /** Updating an id that no element carries changes nothing. */
  lemma MapFresh<T(!new)>(s: seq<T>, key: T -> int, id: int, f: T -> T)
    requires FreshIn(id, s, key)
    ensures MapKey(s, key, id, f) == s
  {
  }

  /** Removing an id that no element carries changes nothing. */
  lemma RemoveFresh<T(!new)>(s: seq<T>, key: T -> int, id: int)
    requires FreshIn(id, s, key)
    ensures RemoveKey(s, key, id) == s
  {
    FilterAll(s, KeyIsNot(key, id));
  }

  /** Removing the id just appended with a fresh id gives back the original sequence. */
  lemma RemoveAppended<T(!new)>(s: seq<T>, x: T, key: T -> int)
    requires FreshIn(key(x), s, key)
    ensures RemoveKey(s + [x], key, key(x)) == s
  {
    FilterConcat(s, [x], KeyIsNot(key, key(x)));
    FilterAll(s, KeyIsNot(key, key(x)));
    assert [x][1..] == [];
  }

  /** An update that keeps every key does not change what a removal of that key leaves. */
  lemma {:induction false} RemoveAfterMap<T(!new)>(s: seq<T>, key: T -> int, id: int, f: T -> T)
    requires forall x :: key(f(x)) == key(x)
    ensures RemoveKey(MapKey(s, key, id, f), key, id) == RemoveKey(s, key, id)
    decreases |s|
  {
    if s != [] {
      var m := MapKey(s, key, id, f);
      assert m[1..] == MapKey(s[1..], key, id, f);
      RemoveAfterMap(s[1..], key, id, f);
    }
  }
}
