/**
  The array operations the source chains together: `filter`, `map`-replace, `slice`, and
  `Math.max(...ids, 0)`, with the facts the rest of the model needs about them.
*/
module Lists {
  import opened Wrappers

  /** `r` keeps some elements of `s`, in their original order. */
  predicate IsSubsequence<T(==)>(r: seq<T>, s: seq<T>)
    decreases |s|
  {
    r == [] || (s != [] && ((r[0] == s[0] && IsSubsequence(r[1..], s[1..])) || IsSubsequence(r, s[1..])))
  }

  /** `s.filter(p)` */
  function Filter<T(==,!new)>(s: seq<T>, p: T -> bool): (r: seq<T>)
    ensures |r| <= |s|
    ensures forall x :: x in r <==> x in s && p(x)
    ensures IsSubsequence(r, s)
  {
    if s == [] then []
    else if p(s[0]) then [s[0]] + Filter(s[1..], p)
    else Filter(s[1..], p)
  }

  /** A filter whose test every element passes returns the list unchanged. */
  lemma {:induction false} FilterKeepsAll<T(!new)>(s: seq<T>, p: T -> bool)
    requires forall x :: x in s ==> p(x)
    ensures Filter(s, p) == s
  {
    if s != [] {
      FilterKeepsAll(s[1..], p);
    }
  }

  /** Filtering distributes over concatenation. */
  lemma {:induction false} FilterAppend<T(!new)>(a: seq<T>, b: seq<T>, p: T -> bool)
    ensures Filter(a + b, p) == Filter(a, p) + Filter(b, p)
  {
    if a == [] {
      assert a + b == b;
    } else {
      assert (a + b)[1..] == a[1..] + b;
      FilterAppend(a[1..], b, p);
    }
  }

  /** Two tests that agree on every element filter alike. */
  lemma {:induction false} FilterAgree<T(!new)>(s: seq<T>, p: T -> bool, q: T -> bool)
    requires forall i :: 0 <= i < |s| ==> p(s[i]) == q(s[i])
    ensures Filter(s, p) == Filter(s, q)
  {
    if s != [] {
      assert forall i :: 0 <= i < |s[1..]| ==> s[1..][i] == s[i + 1];
      FilterAgree(s[1..], p, q);
    }
  }

  /** A filter keeps every element exactly when every element passes its test. */
  lemma {:induction false} FilterKeepsLength<T(!new)>(s: seq<T>, p: T -> bool)
    ensures |Filter(s, p)| == |s| <==> forall i :: 0 <= i < |s| ==> p(s[i])
  {
    if s != [] {
      FilterKeepsLength(s[1..], p);
      if forall i :: 0 <= i < |s| ==> p(s[i]) {
        assert forall i :: 0 <= i < |s[1..]| ==> p(s[1..][i]) by {
          forall i | 0 <= i < |s[1..]| ensures p(s[1..][i]) {
            assert s[1..][i] == s[i + 1];
          }
        }
      }
      if |Filter(s, p)| == |s| {
        assert p(s[0]);
        forall i | 0 <= i < |s| ensures p(s[i]) {
          if i > 0 {
            assert s[i] == s[1..][i - 1];
          }
        }
      }
    }
  }

  /** A weaker test keeps at least as many elements. */
  lemma {:induction false} FilterWeaker<T(!new)>(s: seq<T>, p: T -> bool, q: T -> bool)
    requires forall i :: 0 <= i < |s| ==> p(s[i]) ==> q(s[i])
    ensures |Filter(s, p)| <= |Filter(s, q)|
  {
    if s != [] {
      assert forall i :: 0 <= i < |s[1..]| ==> s[1..][i] == s[i + 1];
      FilterWeaker(s[1..], p, q);
    }
  }

  /** No two elements of `s` share a key (the model of a unique index). */
  predicate DistinctKeys<T, K(==)>(s: seq<T>, key: T -> K) {
    forall i, j :: 0 <= i < j < |s| ==> key(s[i]) != key(s[j])
  }

  /** `key` is carried by no element of `s`. */
  predicate KeyFree<T, K(==)>(s: seq<T>, key: T -> K, k: K) {
    forall i :: 0 <= i < |s| ==> key(s[i]) != k
  }

  lemma DistinctAppend<T, K>(s: seq<T>, key: T -> K, x: T)
    requires DistinctKeys(s, key) && KeyFree(s, key, key(x))
    ensures DistinctKeys(s + [x], key)
  {
  }

  lemma DistinctPrepend<T, K>(x: T, s: seq<T>, key: T -> K)
    requires DistinctKeys(s, key) && KeyFree(s, key, key(x))
    ensures DistinctKeys([x] + s, key)
  {
    assert forall i :: 0 < i < |s| + 1 ==> ([x] + s)[i] == s[i - 1];
  }

  /** Removing elements never breaks a unique index. */
  lemma {:induction false} DistinctFilter<T(!new), K>(s: seq<T>, key: T -> K, p: T -> bool)
    requires DistinctKeys(s, key)
    ensures DistinctKeys(Filter(s, p), key)
  {
    if s != [] {
      DistinctFilter(s[1..], key, p);
      var rest := Filter(s[1..], p);
      if p(s[0]) {
        forall y | y in rest ensures key(y) != key(s[0]) {
          var k :| 0 <= k < |s[1..]| && s[1..][k] == y;
          assert s[k + 1] == y;
        }
        assert Filter(s, p) == [s[0]] + rest;
      }
    }
  }

  /** Replacing one element by another whose key is free among the others keeps the index unique. */
  lemma DistinctUpdate<T, K>(s: seq<T>, key: T -> K, k: nat, x: T)
    requires k < |s| && DistinctKeys(s, key)
    requires forall i :: 0 <= i < |s| && i != k ==> key(s[i]) != key(x)
    ensures DistinctKeys(s[k := x], key)
  {
  }

  /** `s.findIndex(e => key(e) === k)`, as an option. */
  function IndexOfKey<T, K(==)>(s: seq<T>, key: T -> K, k: K): (r: Option<nat>)
    ensures r.Some? ==> r.value < |s| && key(s[r.value]) == k
    ensures r.Some? ==> forall i :: 0 <= i < r.value ==> key(s[i]) != k
    ensures r.None? <==> KeyFree(s, key, k)
  {
    if s == [] then None
    else if key(s[0]) == k then Some(0)
    else match IndexOfKey(s[1..], key, k)
      case None => None
      case Some(i) => Some(i + 1)
  }

  /** Searching two lists whose keys agree position by position finds the same position. */
  lemma {:induction false} IndexOfKeyAgree<T, U, K>(s: seq<T>, key: T -> K, t: seq<U>, key2: U -> K, k: K)
    requires |s| == |t| && forall i :: 0 <= i < |s| ==> key(s[i]) == key2(t[i])
    ensures IndexOfKey(s, key, k) == IndexOfKey(t, key2, k)
  {
    if s != [] {
      IndexOfKeyAgree(s[1..], key, t[1..], key2, k);
    }
  }

  /** No element other than the one at position `i` carries key `k`. */
  predicate KeyFreeExcept<T, K(==)>(s: seq<T>, key: T -> K, i: nat, k: K) {
    forall j :: 0 <= j < |s| && j != i ==> key(s[j]) != k
  }

  /** `s.filter(e => key(e) !== k)` */
  function RemoveKey<T(==,!new), K(==)>(s: seq<T>, key: T -> K, k: K): (r: seq<T>)
    ensures forall x :: x in r <==> x in s && key(x) != k
    ensures IsSubsequence(r, s)
    ensures KeyFree(r, key, k)
  {
    Filter(s, x => key(x) != k)
  }

  /** With a unique key, removing by key removes exactly the one element that carries it. */
  lemma {:induction false} RemoveKeyAt<T(!new), K>(s: seq<T>, key: T -> K, i: nat)
    requires i < |s| && DistinctKeys(s, key)
    ensures RemoveKey(s, key, key(s[i])) == s[..i] + s[i + 1..]
  {
    var k := key(s[i]);
    var before, after := s[..i], s[i + 1..];
    assert s == before + [s[i]] + after;
    assert KeyFree(before, key, k) by {
      forall j | 0 <= j < |before| ensures key(before[j]) != k {
        assert before[j] == s[j];
      }
    }
    assert KeyFree(after, key, k) by {
      forall j | 0 <= j < |after| ensures key(after[j]) != k {
        assert after[j] == s[i + 1 + j];
      }
    }
    RemoveKeyAppend(before + [s[i]], after, key, k);
    RemoveKeyAppend(before, [s[i]], key, k);
    RemoveKeyAbsent(before, key, k);
    RemoveKeyAbsent(after, key, k);
    assert RemoveKey([s[i]], key, k) == [];
  }

  /** Removing a key from a concatenation removes it from each part. */
  lemma RemoveKeyAppend<T(!new), K>(a: seq<T>, b: seq<T>, key: T -> K, k: K)
    ensures RemoveKey(a + b, key, k) == RemoveKey(a, key, k) + RemoveKey(b, key, k)
  {
    FilterAppend(a, b, x => key(x) != k);
  }

  /** Removing a key that no element carries changes nothing. */
  lemma RemoveKeyAbsent<T(!new), K>(s: seq<T>, key: T -> K, k: K)
    requires KeyFree(s, key, k)
    ensures RemoveKey(s, key, k) == s
  {
    FilterKeepsAll(s, x => key(x) != k);
  }

  lemma DistinctRemoveKey<T(!new), K, K2>(s: seq<T>, key: T -> K, k: K, other: T -> K2)
    requires DistinctKeys(s, other)
    ensures DistinctKeys(RemoveKey(s, key, k), other)
  {
    DistinctFilter(s, other, x => key(x) != k);
  }

  /** `s.map(e => key(e) === k ? x : e)` */
  function ReplaceKey<T, K(==)>(s: seq<T>, key: T -> K, k: K, x: T): (r: seq<T>)
    ensures |r| == |s|
    ensures forall i :: 0 <= i < |s| ==> r[i] == (if key(s[i]) == k then x else s[i])
  {
    seq(|s|, i requires 0 <= i < |s| => if key(s[i]) == k then x else s[i])
  }

  /** `s.map(e => hit(e) ? f(e) : e)`, the edit handlers' list update. */
  function ReplaceWhere<T>(s: seq<T>, hit: T -> bool, f: T -> T): (r: seq<T>)
    ensures |r| == |s|
    ensures forall i :: 0 <= i < |s| ==> r[i] == (if hit(s[i]) then f(s[i]) else s[i])
  {
    seq(|s|, i requires 0 <= i < |s| => if hit(s[i]) then f(s[i]) else s[i])
  }

  /** Extending a prefix by one element. */
  lemma TakeSnoc<T>(s: seq<T>, i: nat)
    requires i < |s|
    ensures s[..i + 1] == s[..i] + [s[i]]
  {
  }

  /** `s.slice(0, n)` */
  function Take<T>(s: seq<T>, n: nat): (r: seq<T>)
    ensures |r| == if n < |s| then n else |s|
    ensures r == s[..|r|]
  {
    if n < |s| then s[..n] else s
  }

  /** `s.map(key)`: the key of every element, in order. */
  function Keys<T, K>(s: seq<T>, key: T -> K): (r: seq<K>)
    ensures |r| == |s| && forall i :: 0 <= i < |s| ==> r[i] == key(s[i])
  {
    seq(|s|, i requires 0 <= i < |s| => key(s[i]))
  }

  /** `Math.max(...ids, 0)` */
  function MaxOrZero(ids: seq<int>): (m: int)
    ensures m >= 0
    ensures forall i :: 0 <= i < |ids| ==> ids[i] <= m
    ensures m == 0 || m in ids
  {
    if ids == [] then 0
    else
      var rest := MaxOrZero(ids[1..]);
      if ids[0] > rest then ids[0] else rest
  }

  /** `Math.max(...ids, 0) + 1`: the identifier just above the largest existing one (1 when there is none above 0). */
  function NextId(ids: seq<int>): (n: int)
    ensures n >= 1
    ensures forall i :: 0 <= i < |ids| ==> ids[i] < n
    ensures n == 1 || n - 1 in ids
  {
    MaxOrZero(ids) + 1
  }
}
