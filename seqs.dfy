/**
 * The array operations the modelled code leans on: `filter`, `slice`,
 * `indexOf`, de-duplication through a `Set`, and the stable `sort` of
 * ECMAScript 2019, here an insertion sort by an integer key.
 */
module Seqs {

  /** `a` is `b` with some elements dropped, order kept. */
  predicate IsSubsequence<T(==)>(a: seq<T>, b: seq<T>)
    decreases |b|
  {
    if a == [] then true
    else if b == [] then false
    else (a[0] == b[0] && IsSubsequence(a[1..], b[1..])) || IsSubsequence(a, b[1..])
  }

  /** A prefix one longer is the prefix with the next element appended. */
  lemma TakeSnoc<T>(s: seq<T>, k: nat)
    requires k < |s|
    ensures s[..k + 1] == s[..k] + [s[k]]
  {
  }

  lemma TakeAll<T>(s: seq<T>)
    ensures s[..|s|] == s
  {
  }

  lemma TakeOne<T>(s: seq<T>)
    requires |s| >= 1
    ensures s[..1] == [s[0]]
  {
  }

  lemma AppendAssoc<T>(a: seq<T>, b: seq<T>, c: seq<T>)
    ensures (a + b) + c == a + (b + c)
  {
  }

  /** `s.filter(p)`. */
  function Filter<T>(s: seq<T>, p: T -> bool): (r: seq<T>)
    ensures |r| <= |s|
    ensures forall i :: 0 <= i < |r| ==> p(r[i]) && r[i] in s
    ensures forall i :: 0 <= i < |s| && p(s[i]) ==> s[i] in r
  {
    if s == [] then [] else (if p(s[0]) then [s[0]] else []) + Filter(s[1..], p)
  }

  lemma {:induction false} FilterIsSubsequence<T>(s: seq<T>, p: T -> bool)
    ensures IsSubsequence(Filter(s, p), s)
  {
    if s != [] {
      FilterIsSubsequence(s[1..], p);
      if p(s[0]) {
        var f := Filter(s, p);
        assert f == [s[0]] + Filter(s[1..], p);
        assert f[0] == s[0] && f[1..] == Filter(s[1..], p);
      } else {
        assert Filter(s, p) == Filter(s[1..], p);
      }
    }
  }

  lemma {:induction false} FilterAppend<T>(s: seq<T>, t: seq<T>, p: T -> bool)
    ensures Filter(s + t, p) == Filter(s, p) + Filter(t, p)
  {
    if s != [] {
      assert (s + t)[1..] == s[1..] + t;
      FilterAppend(s[1..], t, p);
    } else {
      assert s + t == t;
    }
  }

  /** Filters with predicates that agree on every element give the same result. */
  lemma {:induction false} FilterAgree<T>(s: seq<T>, p: T -> bool, q: T -> bool)
    requires forall i :: 0 <= i < |s| ==> p(s[i]) == q(s[i])
    ensures Filter(s, p) == Filter(s, q)
  {
    if s != [] {
      FilterAgree(s[1..], p, q);
    }
  }

  /** Filtering keeps a key that tells the elements apart doing so. */
  lemma {:induction false} FilterKeepsDistinct<T, K>(s: seq<T>, p: T -> bool, key: T -> K)
    requires forall i, j :: 0 <= i < j < |s| ==> key(s[i]) != key(s[j])
    ensures forall i, j :: 0 <= i < j < |Filter(s, p)| ==> key(Filter(s, p)[i]) != key(Filter(s, p)[j])
  {
    if s != [] {
      var rest := Filter(s[1..], p);
      FilterKeepsDistinct(s[1..], p, key);
      forall j | 0 <= j < |rest|
        ensures key(rest[j]) != key(s[0])
      {
        var k :| 0 <= k < |s[1..]| && s[1..][k] == rest[j];
        assert s[k + 1] == rest[j];
      }
    }
  }

  /** A filter that keeps everything is the identity. */
  lemma {:induction false} FilterAll<T>(s: seq<T>, p: T -> bool)
    requires forall i :: 0 <= i < |s| ==> p(s[i])
    ensures Filter(s, p) == s
  {
    if s != [] {
      FilterAll(s[1..], p);
    }
  }

  /** `s.slice(0, end)` in JavaScript: a negative `end` counts back from the length. */
  function SliceTo<T>(s: seq<T>, end: int): (r: seq<T>)
    ensures end >= 0 ==> |r| == if end < |s| then end else |s|
    ensures end < 0 ==> |r| == if |s| + end > 0 then |s| + end else 0
    ensures r == s[..|r|]
  {
    var n := if end >= 0 then end else |s| + end;
    if n <= 0 then [] else if n >= |s| then s else s[..n]
  }

  /** A prefix of a subsequence is a subsequence. */
  lemma {:induction false} SubsequencePrefix<T>(a: seq<T>, b: seq<T>, k: nat)
    requires IsSubsequence(a, b) && k <= |a|
    ensures IsSubsequence(a[..k], b)
    decreases |b|
  {
    if k > 0 {
      if a[0] == b[0] && IsSubsequence(a[1..], b[1..]) {
        SubsequencePrefix(a[1..], b[1..], k - 1);
        assert a[..k][1..] == a[1..][..k - 1];
      } else {
        SubsequencePrefix(a, b[1..], k);
      }
    }
  }

  /** `s.filter(p).slice(0, limit)`: the first `limit` elements satisfying `p`, in order. */
  function FirstMatching<T>(s: seq<T>, p: T -> bool, limit: int): (r: seq<T>)
    ensures IsSubsequence(r, s)
    ensures limit >= 0 ==> |r| <= limit
    ensures forall i :: 0 <= i < |r| ==> p(r[i])
    ensures limit >= 0 ==> |r| == if limit < |Filter(s, p)| then limit else |Filter(s, p)|
    ensures |r| <= |Filter(s, p)| && r == Filter(s, p)[..|r|]
  {
    var f := Filter(s, p);
    FilterIsSubsequence(s, p);
    var r := SliceTo(f, limit);
    SubsequencePrefix(f, s, |r|);
    r
  }

  lemma FirstMatchingAgree<T>(s: seq<T>, p: T -> bool, q: T -> bool, limit: int)
    requires forall i :: 0 <= i < |s| ==> p(s[i]) == q(s[i])
    ensures FirstMatching(s, p, limit) == FirstMatching(s, q, limit)
  {
    FilterAgree(s, p, q);
  }

  /** With room for every match, nothing that satisfies `p` is left out. */
  lemma FirstMatchingAll<T>(s: seq<T>, p: T -> bool, limit: int)
    requires limit >= |s|
    ensures FirstMatching(s, p, limit) == Filter(s, p)
    ensures forall i :: 0 <= i < |s| && p(s[i]) ==> s[i] in FirstMatching(s, p, limit)
  {
  }

  /** The result for a limit is the front of the result with room for every match. */
  lemma FirstMatchingIsPrefix<T>(s: seq<T>, p: T -> bool, limit: int)
    ensures var all := FirstMatching(s, p, |s|);
      limit >= 0 ==> FirstMatching(s, p, limit) == all[..if limit < |all| then limit else |all|]
  {
    FirstMatchingAll(s, p, |s|);
  }

  /** A match is left out only when `limit` matches come before it. */
  lemma FirstMatchingEarly<T>(s: seq<T>, p: T -> bool, limit: int, i: nat)
    requires i < |s| && p(s[i]) && |FirstMatching(s[..i], p, limit)| < limit
    ensures s[i] in FirstMatching(s, p, limit)
  {
    assert s == s[..i] + s[i..];
    FilterAppend(s[..i], s[i..], p);
    var before := Filter(s[..i], p);
    assert s[i..][0] == s[i];
    assert Filter(s[i..], p)[0] == s[i];
    var r := FirstMatching(s, p, limit);
    assert Filter(s, p)[|before|] == s[i];
    assert r[|before|] == s[i];
  }

  /**
   * Only the first `limit` matches count: once a prefix of the input holds
   * that many, whatever follows it is never returned.
   */
  lemma FirstMatchingPrefix<T>(s: seq<T>, t: seq<T>, p: T -> bool, limit: int)
    requires 0 <= limit <= |Filter(s, p)|
    ensures FirstMatching(s + t, p, limit) == FirstMatching(s, p, limit)
  {
    FilterAppend(s, t, p);
  }

  /** `s.indexOf(x)`: the first index of `x`, or -1. */
  function IndexOf<T(==)>(s: seq<T>, x: T): (r: int)
    ensures -1 <= r < |s|
    ensures r == -1 <==> x !in s
    ensures r >= 0 ==> s[r] == x && forall j :: 0 <= j < r ==> s[j] != x
  {
    if s == [] then -1
    else if s[0] == x then 0
    else var k := IndexOf(s[1..], x); if k == -1 then -1 else k + 1
  }

  /**
   * `t.includes(x)`, as a scan from index `i`. Unlike `x in t` it is unfolded
   * one index at a time, so a long literal table is not expanded whole.
   */
  predicate IncludesFrom<T(==)>(t: seq<T>, x: T, i: nat)
    decreases |t| - i
  {
    i < |t| && (t[i] == x || IncludesFrom(t, x, i + 1))
  }

  lemma {:induction false} IncludesFromIff<T>(t: seq<T>, x: T, i: nat)
    ensures IncludesFrom(t, x, i) <==> exists k :: i <= k < |t| && t[k] == x
    decreases |t| - i
  {
    if i < |t| {
      IncludesFromIff(t, x, i + 1);
    }
  }

  /** The scan finds exactly the members. */
  lemma IncludesIff<T>(t: seq<T>, x: T)
    ensures IncludesFrom(t, x, 0) <==> x in t
  {
    IncludesFromIff(t, x, 0);
  }

  predicate NoDuplicates<T(==)>(s: seq<T>) {
    forall i, j :: 0 <= i < j < |s| ==> s[i] != s[j]
  }

  /** `[...new Set(s)]`: each element once, at the place of its first occurrence. */
  function Dedup<T(==)>(s: seq<T>): (r: seq<T>)
    ensures NoDuplicates(r)
    ensures forall i :: 0 <= i < |r| ==> r[i] in s
    ensures forall i :: 0 <= i < |s| ==> s[i] in r
  {
    if s == [] then []
    else
      var d := Dedup(s[..|s| - 1]);
      var last := s[|s| - 1];
      assert s == s[..|s| - 1] + [last];
      if last in d then d else d + [last]
  }

  /** De-duplication keeps exactly the members. */
  lemma DedupMembers<T>(s: seq<T>)
    ensures forall x :: x in Dedup(s) <==> x in s
  {
    var d := Dedup(s);
    forall x | x in s
      ensures x in d
    {
      var i :| 0 <= i < |s| && s[i] == x;
    }
  }

  /** Appending an element already seen leaves the de-duplicated list as it was. */
  lemma DedupSnoc<T>(s: seq<T>, x: T)
    ensures Dedup(s + [x]) == if x in s then Dedup(s) else Dedup(s) + [x]
  {
    assert (s + [x])[..|s + [x]| - 1] == s;
  }

  /** A list without repetitions is its own de-duplication. */
  lemma {:induction false} DedupOfDistinct<T>(s: seq<T>)
    requires NoDuplicates(s)
    ensures Dedup(s) == s
  {
    if s != [] {
      var init := s[..|s| - 1];
      DedupOfDistinct(init);
      assert s[|s| - 1] !in init;
      assert s == init + [s[|s| - 1]];
    }
  }

  /** Elements of `s` whose key is `k`, in order. */
  function WithKey<T>(s: seq<T>, key: T -> int, k: int): seq<T> {
    if s == [] then [] else (if key(s[0]) == k then [s[0]] else []) + WithKey(s[1..], key, k)
  }

  predicate SortedBy<T>(s: seq<T>, key: T -> int) {
    forall i, j :: 0 <= i < j < |s| ==> key(s[i]) <= key(s[j])
  }

  /** `x` placed before the first element whose key is at least its own. */
  function InsertBy<T>(x: T, s: seq<T>, key: T -> int): (r: seq<T>)
    ensures |r| == |s| + 1
  {
    if s == [] then [x]
    else if key(x) <= key(s[0]) then [x] + s
    else [s[0]] + InsertBy(x, s[1..], key)
  }

  /** `s.sort((a, b) => key(a) - key(b))`: the stable sort of ECMAScript 2019. */
  function SortBy<T>(s: seq<T>, key: T -> int): (r: seq<T>)
    ensures |r| == |s|
  {
    if s == [] then [] else InsertBy(s[0], SortBy(s[1..], key), key)
  }

  lemma {:induction false} InsertByMultiset<T>(x: T, s: seq<T>, key: T -> int)
    ensures multiset(InsertBy(x, s, key)) == multiset(s) + multiset{x}
  {
    if s == [] {
    } else if key(x) <= key(s[0]) {
      assert InsertBy(x, s, key) == [x] + s;
    } else {
      var r := InsertBy(x, s[1..], key);
      InsertByMultiset(x, s[1..], key);
      assert InsertBy(x, s, key) == [s[0]] + r;
      assert multiset([s[0]] + r) == multiset{s[0]} + multiset(r);
      assert s == [s[0]] + s[1..];
      assert multiset(s) == multiset{s[0]} + multiset(s[1..]);
    }
  }

  lemma {:induction false} InsertBySorted<T>(x: T, s: seq<T>, key: T -> int)
    requires SortedBy(s, key)
    ensures SortedBy(InsertBy(x, s, key), key)
  {
    if s != [] && key(x) > key(s[0]) {
      InsertBySorted(x, s[1..], key);
      InsertByMultiset(x, s[1..], key);
      var r := InsertBy(x, s[1..], key);
      forall i | 0 <= i < |r|
        ensures key(s[0]) <= key(r[i])
      {
        assert r[i] in multiset(s[1..]) + multiset{x};
      }
    }
  }

  /** Selecting by key distributes over a leading element. */
  lemma WithKeyCons<T>(y: T, t: seq<T>, key: T -> int, k: int)
    ensures WithKey([y] + t, key, k) == (if key(y) == k then [y] else []) + WithKey(t, key, k)
  {
    assert ([y] + t)[0] == y && ([y] + t)[1..] == t;
  }

  lemma {:induction false} InsertByWithKey<T>(x: T, s: seq<T>, key: T -> int, k: int)
    ensures WithKey(InsertBy(x, s, key), key, k) == (if key(x) == k then [x] else []) + WithKey(s, key, k)
  {
    if s == [] {
    } else if key(x) <= key(s[0]) {
      WithKeyCons(x, s, key, k);
    } else {
      var r := InsertBy(x, s[1..], key);
      var tail := WithKey(s[1..], key, k);
      assert InsertBy(x, s, key) == [s[0]] + r;
      InsertByWithKey(x, s[1..], key, k);
      WithKeyCons(s[0], r, key, k);
      assert s == [s[0]] + s[1..];
      WithKeyCons(s[0], s[1..], key, k);
      if key(x) == k {
        assert key(s[0]) != k;
        assert WithKey(InsertBy(x, s, key), key, k) == [] + ([x] + tail);
        assert WithKey(s, key, k) == [] + tail;
      } else {
        assert WithKey(r, key, k) == [] + tail;
      }
    }
  }

  /** SortBy orders by key and only reorders. */
  lemma {:induction false} SortByCorrect<T>(s: seq<T>, key: T -> int)
    ensures SortedBy(SortBy(s, key), key)
    ensures multiset(SortBy(s, key)) == multiset(s)
  {
    if s != [] {
      SortByCorrect(s[1..], key);
      InsertBySorted(s[0], SortBy(s[1..], key), key);
      InsertByMultiset(s[0], SortBy(s[1..], key), key);
      assert s == [s[0]] + s[1..];
    }
  }

  /** SortBy is stable: elements with equal keys keep their relative order. */
  lemma {:induction false} SortByStable<T>(s: seq<T>, key: T -> int, k: int)
    ensures WithKey(SortBy(s, key), key, k) == WithKey(s, key, k)
  {
    if s != [] {
      SortByStable(s[1..], key, k);
      InsertByWithKey(s[0], SortBy(s[1..], key), key, k);
    }
  }
}
