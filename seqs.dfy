// Generic sequence operations used throughout the extension: the Array
// methods the source relies on (filter, findIndex, push-or-replace, a stable
// sort, de-duplication through a Set) stated once, with their properties.

module Seqs {

  datatype Option<T> = None | Some(value: T)

  /** Array.prototype.filter: the elements that satisfy `keep`, in order. */
  function Filter<T(==)>(s: seq<T>, keep: T -> bool): (r: seq<T>)
    ensures |r| <= |s|
    ensures forall i :: 0 <= i < |r| ==> r[i] in s && keep(r[i])
    ensures forall i :: 0 <= i < |s| && keep(s[i]) ==> s[i] in r
  {
    if s == [] then []
    else if keep(s[0]) then [s[0]] + Filter(s[1..], keep)
    else Filter(s[1..], keep)
  }

  /** `a` is obtained from `b` by deleting elements (order kept). */
  predicate Sublist<T(==)>(a: seq<T>, b: seq<T>)
  {
    if a == [] then true
    else if b == [] then false
    else (a[0] == b[0] && Sublist(a[1..], b[1..])) || Sublist(a, b[1..])
  }

  lemma {:induction false} SublistRefl<T>(s: seq<T>)
    ensures Sublist(s, s)
  {
    if s != [] {
      SublistRefl(s[1..]);
    }
  }

  /** A filter deletes elements and keeps the order of the rest. */
  lemma {:induction false} FilterSublist<T>(s: seq<T>, keep: T -> bool)
    ensures Sublist(Filter(s, keep), s)
  {
    if s != [] {
      FilterSublist(s[1..], keep);
    }
  }

  lemma {:induction false} FilterAppend<T>(a: seq<T>, b: seq<T>, keep: T -> bool)
    ensures Filter(a + b, keep) == Filter(a, keep) + Filter(b, keep)
  {
    if a == [] {
      assert a + b == b;
    } else {
      assert (a + b)[1..] == a[1..] + b;
      FilterAppend(a[1..], b, keep);
    }
  }

  /** A `for … of` loop that returns false at the first element failing `test`. */
  method Every<T>(s: seq<T>, test: T -> bool) returns (r: bool)
    ensures r <==> forall i :: 0 <= i < |s| ==> test(s[i])
  {
    for i := 0 to |s|
      invariant forall k :: 0 <= k < i ==> test(s[k])
    {
      if !test(s[i]) {
        return false;
      }
    }
    return true;
  }

  /** Filtering keeps exactly the elements that pass, each as often as before. */
  lemma {:induction false} FilterMultiset<T>(s: seq<T>, keep: T -> bool, x: T)
    ensures multiset(Filter(s, keep))[x] == if keep(x) then multiset(s)[x] else 0
  {
    if s != [] {
      FilterMultiset(s[1..], keep, x);
      assert s == [s[0]] + s[1..];
      assert multiset(s) == multiset([s[0]]) + multiset(s[1..]);
      if keep(s[0]) {
        assert multiset(Filter(s, keep)) == multiset([s[0]]) + multiset(Filter(s[1..], keep));
      } else {
        assert Filter(s, keep) == Filter(s[1..], keep);
      }
    }
  }

  /** A filter that rejects nothing is the identity; so filtering twice is filtering once. */
  lemma {:induction false} FilterKeepsAll<T>(s: seq<T>, keep: T -> bool)
    requires forall x :: x in s ==> keep(x)
    ensures Filter(s, keep) == s
  {
    if s != [] {
      FilterKeepsAll(s[1..], keep);
    }
  }

  /** The filter is empty exactly when no element passes. */
  lemma {:induction false} FilterEmpty<T>(s: seq<T>, keep: T -> bool)
    ensures Filter(s, keep) == [] <==> forall x :: x in s ==> !keep(x)
  {
    if s != [] {
      FilterEmpty(s[1..], keep);
    }
  }

  /** Filters that agree on every element of `s` select the same elements. */
  lemma {:induction false} FilterExt<T>(s: seq<T>, p: T -> bool, q: T -> bool)
    requires forall x :: x in s ==> p(x) == q(x)
    ensures Filter(s, p) == Filter(s, q)
  {
    if s != [] {
      FilterExt(s[1..], p, q);
    }
  }

  /** Filtering by `p` and then by `q` is filtering once by their conjunction `pq`. */
  lemma {:induction false} FilterTwice<T>(s: seq<T>, p: T -> bool, q: T -> bool, pq: T -> bool)
    requires forall x :: x in s ==> pq(x) == (p(x) && q(x))
    ensures Filter(Filter(s, p), q) == Filter(s, pq)
  {
    if s != [] {
      FilterTwice(s[1..], p, q, pq);
    }
  }

  /** The filter keeps the full length exactly when it rejects nothing (the "length unchanged" test). */
  lemma {:induction false} FilterLengthSame<T>(s: seq<T>, keep: T -> bool)
    ensures |Filter(s, keep)| == |s| <==> forall i :: 0 <= i < |s| ==> keep(s[i])
  {
    if s != [] {
      FilterLengthSame(s[1..], keep);
      if keep(s[0]) {
        assert forall i :: 1 <= i < |s| ==> s[i] == s[1..][i - 1];
      }
    }
  }

  /** How many elements satisfy `keep`, counted from the front as a loop would. */
  function Count<T>(s: seq<T>, keep: T -> bool): nat
  {
    if s == [] then 0
    else Count(s[..|s| - 1], keep) + (if keep(s[|s| - 1]) then 1 else 0)
  }

  /** Counting one more element of a prefix. */
  lemma CountStep<T>(s: seq<T>, i: nat, keep: T -> bool)
    requires i < |s|
    ensures Count(s[..i + 1], keep) == Count(s[..i], keep) + (if keep(s[i]) then 1 else 0)
  {
    assert s[..i + 1][..i] == s[..i];
  }

  /** The count is the length of the filtered sequence. */
  lemma {:induction false} CountIsFilterLength<T>(s: seq<T>, keep: T -> bool)
    ensures Count(s, keep) == |Filter(s, keep)|
  {
    if s != [] {
      var n := |s| - 1;
      CountIsFilterLength(s[..n], keep);
      FilterAppend(s[..n], [s[n]], keep);
      assert s == s[..n] + [s[n]];
    }
  }

  /** Applying `f` to every element (Array.prototype.map). */
  function Map<T, U>(s: seq<T>, f: T -> U): (r: seq<U>)
    ensures |r| == |s|
    ensures forall i :: 0 <= i < |s| ==> r[i] == f(s[i])
  {
    seq(|s|, i requires 0 <= i < |s| => f(s[i]))
  }

  /** A left fold of `step` over `s`; element k is passed its position `offset + k`. */
  function FoldIndexed<S, T>(init: S, s: seq<T>, step: (S, T, nat) -> S, offset: nat): S
  {
    if s == [] then init
    else step(FoldIndexed(init, s[..|s| - 1], step, offset), s[|s| - 1], offset + |s| - 1)
  }

  /** Folding over one more element of a prefix applies one more step. */
  lemma FoldIndexedStep<S, T>(init: S, s: seq<T>, i: nat, step: (S, T, nat) -> S, offset: nat)
    requires i < |s|
    ensures FoldIndexed(init, s[..i + 1], step, offset) == step(FoldIndexed(init, s[..i], step, offset), s[i], offset + i)
  {
    assert s[..i + 1][..i] == s[..i];
  }

  /** Once the state is one that every step leaves alone, the rest of the fold changes nothing. */
  lemma {:induction false} FoldIndexedStuck<S, T>(init: S, s: seq<T>, j: nat, step: (S, T, nat) -> S, offset: nat, stuck: S -> bool)
    requires j <= |s|
    requires forall x, t, k :: stuck(x) ==> step(x, t, k) == x
    requires stuck(FoldIndexed(init, s[..j], step, offset))
    ensures FoldIndexed(init, s, step, offset) == FoldIndexed(init, s[..j], step, offset)
    decreases |s| - j
  {
    if j < |s| {
      FoldIndexedStep(init, s, j, step, offset);
      FoldIndexedStuck(init, s, j + 1, step, offset, stuck);
    } else {
      assert s[..j] == s;
    }
  }

  /** Array.prototype.findIndex for `key(x) === k`: the first index whose key is `k`. */
  function IndexOfKey<T, K(==)>(s: seq<T>, key: T -> K, k: K): (r: Option<nat>)
    ensures r.Some? ==> r.value < |s| && key(s[r.value]) == k
    ensures r.Some? ==> forall j :: 0 <= j < r.value ==> key(s[j]) != k
    ensures r.None? <==> forall j :: 0 <= j < |s| ==> key(s[j]) != k
  {
    if s == [] then None
    else if key(s[0]) == k then Some(0)
    else match IndexOfKey(s[1..], key, k)
      case None => None
      case Some(i) => Some(i + 1)
  }

  /** A loop that stops at the first element whose key is `k`. */
  method FirstIndexOfKey<T, K(==)>(s: seq<T>, key: T -> K, k: K) returns (r: Option<nat>)
    ensures r == IndexOfKey(s, key, k)
  {
    for i := 0 to |s|
      invariant forall j :: 0 <= j < i ==> key(s[j]) != k
    {
      if key(s[i]) == k {
        IndexOfKeyIsFirst(s, key, k, i);
        return Some(i);
      }
    }
    return None;
  }

  /** An index whose key is `k` with no match before it is the one IndexOfKey finds. */
  lemma {:induction false} IndexOfKeyIsFirst<T, K>(s: seq<T>, key: T -> K, k: K, i: nat)
    requires i < |s| && key(s[i]) == k
    requires forall j :: 0 <= j < i ==> key(s[j]) != k
    ensures IndexOfKey(s, key, k) == Some(i)
  {
    var r := IndexOfKey(s, key, k);
    assert r.Some?;
    assert !(r.value < i);
  }

  /** The first match in a prefix is the first match in the whole sequence. */
  lemma IndexOfKeyPrefix<T, K>(a: seq<T>, b: seq<T>, key: T -> K, k: K)
    requires a <= b
    requires IndexOfKey(a, key, k).Some?
    ensures IndexOfKey(b, key, k) == IndexOfKey(a, key, k)
  {
    var i := IndexOfKey(a, key, k).value;
    assert b[i] == a[i];
    assert forall j :: 0 <= j < i ==> b[j] == a[j];
  }

  /** Behind a prefix without a match, the first match is the first match of the rest, shifted. */
  lemma IndexOfKeyAfter<T, K>(a: seq<T>, b: seq<T>, key: T -> K, k: K)
    requires forall j :: 0 <= j < |a| ==> key(a[j]) != k
    ensures IndexOfKey(a + b, key, k) ==
      match IndexOfKey(b, key, k)
      case None => None
      case Some(i) => Some(|a| + i)
  {
    var ab := a + b;
    assert forall j :: 0 <= j < |a| ==> ab[j] == a[j];
    assert forall j :: 0 <= j < |b| ==> ab[|a| + j] == b[j];
    match IndexOfKey(b, key, k)
    case None =>
      assert forall j :: |a| <= j < |ab| ==> ab[j] == b[j - |a|];
    case Some(i) =>
      assert ab[|a| + i] == b[i];
      assert forall j :: |a| <= j < |a| + i ==> ab[j] == b[j - |a|];
  }

  /** The first element whose key is `k` (Array.prototype.find), if any. */
  function FindByKey<T, K(==)>(s: seq<T>, key: T -> K, k: K): (r: Option<T>)
    ensures r.Some? ==> r.value in s && key(r.value) == k
    ensures r.None? <==> forall i :: 0 <= i < |s| ==> key(s[i]) != k
  {
    match IndexOfKey(s, key, k)
    case None => None
    case Some(i) => Some(s[i])
  }

  /**
   * The "findIndex, then replace at that index or push" update the source
   * writes out for prompts, chains and selector configurations.
   */
  function Upsert<T, K(==)>(s: seq<T>, x: T, key: T -> K): (r: seq<T>)
    ensures x in r
    ensures (exists i :: 0 <= i < |s| && key(s[i]) == key(x)) ==> |r| == |s|
    ensures (forall i :: 0 <= i < |s| ==> key(s[i]) != key(x)) ==> r == s + [x]
    ensures forall i :: 0 <= i < |s| && key(s[i]) != key(x) ==> r[i] == s[i]
  {
    match IndexOfKey(s, key, key(x))
    case Some(i) => assert s[i := x][i] == x; s[i := x]
    case None => s + [x]
  }

  /** Upsert replaces only the first element carrying the key; duplicates after it stay. */
  lemma UpsertReplacesFirst<T, K>(s: seq<T>, x: T, key: T -> K, i: nat)
    requires i < |s| && key(s[i]) == key(x)
    requires forall j :: 0 <= j < i ==> key(s[j]) != key(x)
    ensures Upsert(s, x, key) == s[i := x]
  {
    var found := IndexOfKey(s, key, key(x));
    assert found.Some?;
    assert found.value == i by {
      if found.value < i {
      } else if found.value > i {
      }
    }
  }

  /** After pushing an element whose key is new, the first element with that key is the pushed one. */
  lemma FindAfterPush<T, K>(s: seq<T>, x: T, key: T -> K)
    requires forall j :: 0 <= j < |s| ==> key(s[j]) != key(x)
    ensures FindByKey(s + [x], key, key(x)) == Some(x)
  {
    var t := s + [x];
    assert t[|s|] == x;
    assert forall j :: 0 <= j < |s| ==> t[j] == s[j];
  }

  /** After replacing the first element with a key, that element is found by the key. */
  lemma FindAfterReplace<T, K>(s: seq<T>, i: nat, x: T, key: T -> K)
    requires i < |s| && key(s[i]) == key(x)
    requires forall j :: 0 <= j < i ==> key(s[j]) != key(x)
    ensures FindByKey(s[i := x], key, key(x)) == Some(x)
  {
    var t := s[i := x];
    assert t[i] == x;
    assert forall j :: 0 <= j < i ==> t[j] == s[j];
  }

  /** `[...new Set(s)]`: the first occurrence of every element, in order. */
  function Dedupe<T(==)>(s: seq<T>): (r: seq<T>)
    ensures forall i :: 0 <= i < |r| ==> r[i] in s
    ensures forall i :: 0 <= i < |s| ==> s[i] in r
    ensures forall i, j :: 0 <= i < j < |r| ==> r[i] != r[j]
    ensures |r| <= |s|
  {
    if s == [] then []
    else
      var d := Dedupe(s[..|s| - 1]);
      var last := s[|s| - 1];
      assert s == s[..|s| - 1] + [last];
      if last in d then d else d + [last]
  }

  /** Concatenation of a sequence of sequences. */
  function Flatten<T>(ss: seq<seq<T>>): (r: seq<T>)
    ensures |r| == 0 <==> forall i :: 0 <= i < |ss| ==> ss[i] == []
  {
    if ss == [] then []
    else
      Flatten(ss[..|ss| - 1]) + ss[|ss| - 1]
  }

  /** Flattening the images of one more element appends that element's image. */
  lemma FlattenMapStep<T, U>(s: seq<T>, i: nat, f: T -> seq<U>)
    requires i < |s|
    ensures Flatten(Map(s[..i + 1], f)) == Flatten(Map(s[..i], f)) + f(s[i])
  {
    var m := Map(s[..i + 1], f);
    assert m[..i] == Map(s[..i], f);
  }

  lemma {:induction false} FlattenMember<T>(ss: seq<seq<T>>, x: T)
    requires x in Flatten(ss)
    ensures exists i :: 0 <= i < |ss| && x in ss[i]
  {
    var init := ss[..|ss| - 1];
    if x in Flatten(init) {
      FlattenMember(init, x);
      var i :| 0 <= i < |init| && x in init[i];
      assert ss[i] == init[i];
    }
  }

  function Min(a: int, b: int): int { if a <= b then a else b }

  /** `s.slice(0, n)`. */
  function Take<T>(s: seq<T>, n: nat): (r: seq<T>)
    ensures |r| == Min(n, |s|)
    ensures forall i :: 0 <= i < |r| ==> r[i] == s[i]
  {
    if n <= |s| then s[..n] else s
  }

  // ---------------------------------------------------------------------
  // Stable descending sort by an integer key: the order Array.prototype.sort
  // produces for the comparator (a, b) => key(b) - key(a).

  predicate SortedDesc<T>(s: seq<T>, key: T -> int)
  {
    forall i, j :: 0 <= i < j < |s| ==> key(s[i]) >= key(s[j])
  }

  /** Inserts `x` after every element with a larger key, before the rest. */
  function InsertDesc<T>(x: T, s: seq<T>, key: T -> int): (r: seq<T>)
    ensures multiset(r) == multiset(s) + multiset{x}
    ensures |r| == |s| + 1
  {
    if s == [] then [x]
    else if key(s[0]) > key(x) then
      assert s == [s[0]] + s[1..];
      [s[0]] + InsertDesc(x, s[1..], key)
    else [x] + s
  }

  function SortDesc<T>(s: seq<T>, key: T -> int): (r: seq<T>)
    ensures multiset(r) == multiset(s)
    ensures |r| == |s|
  {
    if s == [] then []
    else
      assert s == [s[0]] + s[1..];
      InsertDesc(s[0], SortDesc(s[1..], key), key)
  }

  lemma {:induction false} InsertDescSorted<T>(x: T, s: seq<T>, key: T -> int)
    requires SortedDesc(s, key)
    ensures SortedDesc(InsertDesc(x, s, key), key)
  {
    if s != [] && key(s[0]) > key(x) {
      InsertDescSorted(x, s[1..], key);
      var r := InsertDesc(x, s, key);
      assert r == [s[0]] + InsertDesc(x, s[1..], key);
      forall j | 1 <= j < |r| ensures key(r[0]) >= key(r[j]) {
        assert r[j] in multiset(InsertDesc(x, s[1..], key));
        assert r[j] == x || r[j] in multiset(s[1..]);
      }
    }
  }

  /** The sorted copy is ordered by descending key. */
  lemma {:induction false} SortDescSorted<T>(s: seq<T>, key: T -> int)
    ensures SortedDesc(SortDesc(s, key), key)
  {
    if s != [] {
      SortDescSorted(s[1..], key);
      InsertDescSorted(s[0], SortDesc(s[1..], key), key);
    }
  }

  /** Filtering a sequence sorted by descending key keeps it sorted. */
  lemma {:induction false} FilterSortedDesc<T>(s: seq<T>, keep: T -> bool, key: T -> int)
    requires SortedDesc(s, key)
    ensures SortedDesc(Filter(s, keep), key)
  {
    if s != [] {
      var t := s[1..];
      assert SortedDesc(t, key) by {
        forall i, j | 0 <= i < j < |t| ensures key(t[i]) >= key(t[j]) {
          assert t[i] == s[i + 1] && t[j] == s[j + 1];
        }
      }
      FilterSortedDesc(t, keep, key);
      var f := Filter(t, keep);
      forall j | 0 <= j < |f| ensures key(s[0]) >= key(f[j]) {
        var m :| 0 <= m < |t| && t[m] == f[j];
        assert t[m] == s[m + 1];
      }
    }
  }

  /** The predicate "has key k", as a value that filters can share. */
  function KeyIs<T>(key: T -> int, k: int): T -> bool
  {
    x => key(x) == k
  }

  lemma {:induction false} InsertDescStable<T>(x: T, s: seq<T>, key: T -> int, k: int)
    ensures Filter(InsertDesc(x, s, key), KeyIs(key, k)) == Filter([x] + s, KeyIs(key, k))
  {
    var p := KeyIs(key, k);
    if s != [] && key(s[0]) > key(x) {
      InsertDescStable(x, s[1..], key, k);
      assert InsertDesc(x, s, key) == [s[0]] + InsertDesc(x, s[1..], key);
      FilterAppend([s[0]], InsertDesc(x, s[1..], key), p);
      FilterAppend([x], s[1..], p);
      FilterAppend([s[0]], s[1..], p);
      FilterAppend([x], s, p);
      assert s == [s[0]] + s[1..];
      if key(x) == k {
        assert !p(s[0]);
      }
    }
  }

  /**
   * Stability: for every key, the elements carrying that key appear in the
   * sorted copy in the same order as in the input.
   */
  lemma {:induction false} SortDescStable<T>(s: seq<T>, key: T -> int, k: int)
    ensures Filter(SortDesc(s, key), KeyIs(key, k)) == Filter(s, KeyIs(key, k))
  {
    if s != [] {
      var p := KeyIs(key, k);
      SortDescStable(s[1..], key, k);
      InsertDescStable(s[0], SortDesc(s[1..], key), key, k);
      FilterAppend([s[0]], SortDesc(s[1..], key), p);
      FilterAppend([s[0]], s[1..], p);
      assert s == [s[0]] + s[1..];
    }
  }
}
