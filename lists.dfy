/** The two list operations the result pipelines are built from: keeping the
    first element seen for each key (a loop over a `seen` set or a dict), and
    Python's stable `sort(key=..., reverse=True)`. */
module Lists {

  // ---------------------------------------------------------------------------
  // Subsequences

  /** `a` is obtained from `b` by deleting elements. */
  predicate IsSubsequence<T(==)>(a: seq<T>, b: seq<T>)
    decreases |b|
  {
    |a| <= |b| &&
    (a == [] || (b != [] && ((a[0] == b[0] && IsSubsequence(a[1..], b[1..])) || IsSubsequence(a, b[1..]))))
  }

  lemma {:induction false} SubsequenceMembers<T>(a: seq<T>, b: seq<T>)
    requires IsSubsequence(a, b)
    ensures forall x :: x in a ==> x in b
    decreases |b|
  {
    if a != [] {
      if a[0] == b[0] && IsSubsequence(a[1..], b[1..]) {
        SubsequenceMembers(a[1..], b[1..]);
        assert forall x :: x in a ==> x == a[0] || x in a[1..];
      } else {
        SubsequenceMembers(a, b[1..]);
      }
    }
  }

  // ---------------------------------------------------------------------------
  // First element per key

  /** The elements of `s` whose key is not in `seen` and has not been met
      earlier in `s`: what a left-to-right loop keeps when it skips every
      element whose key it has already recorded. */
  function DedupFrom<T, K(==)>(s: seq<T>, key: T -> K, seen: set<K>): seq<T>
    decreases |s|
  {
    if s == [] then []
    else if key(s[0]) in seen then DedupFrom(s[1..], key, seen)
    else [s[0]] + DedupFrom(s[1..], key, seen + {key(s[0])})
  }

  /** One step of the left-to-right dedup loop: the element at `i` is skipped
      when its key is already recorded and kept (its key recorded) otherwise,
      and what is kept so far plus what the rest will keep stays the same. */
  lemma DedupFromStep<T, K>(s: seq<T>, i: nat, key: T -> K, seen: set<K>, kept: seq<T>, whole: seq<T>)
    requires i < |s|
    requires kept + DedupFrom(s[i..], key, seen) == whole
    ensures key(s[i]) in seen ==> kept + DedupFrom(s[i + 1..], key, seen) == whole
    ensures key(s[i]) !in seen ==> (kept + [s[i]]) + DedupFrom(s[i + 1..], key, seen + {key(s[i])}) == whole
  {
    assert s[i..][0] == s[i] && s[i..][1..] == s[i + 1..];
    if key(s[i]) !in seen {
      var rest := DedupFrom(s[i + 1..], key, seen + {key(s[i])});
      assert DedupFrom(s[i..], key, seen) == [s[i]] + rest;
      assert kept + ([s[i]] + rest) == (kept + [s[i]]) + rest;
    }
  }

  /** The first element of `s` for each key, in the order of `s`. */
  function FirstByKey<T, K(==)>(s: seq<T>, key: T -> K): seq<T> {
    DedupFrom(s, key, {})
  }

  /** No element of `s` before position `i` has the key of `s[i]`. */
  predicate IsFirstOccurrence<T, K(==)>(s: seq<T>, key: T -> K, i: int)
    requires 0 <= i < |s|
  {
    forall j :: 0 <= j < i ==> key(s[j]) != key(s[i])
  }

  function KeySet<T(==), K>(s: seq<T>, key: T -> K): set<K> {
    set x | x in s :: key(x)
  }

  /** What the dedup loop keeps is a subsequence of its input. */
  lemma {:induction false} DedupFromSubsequence<T, K>(s: seq<T>, key: T -> K, seen: set<K>)
    ensures IsSubsequence(DedupFrom(s, key, seen), s)
    decreases |s|
  {
    if s != [] {
      if key(s[0]) in seen {
        DedupFromSubsequence(s[1..], key, seen);
      } else {
        DedupFromSubsequence(s[1..], key, seen + {key(s[0])});
        var r := DedupFrom(s, key, seen);
        assert r[1..] == DedupFrom(s[1..], key, seen + {key(s[0])});
      }
    }
  }

  /** No two elements of `r` share a key. */
  predicate DistinctKeys<T, K(==)>(r: seq<T>, key: T -> K) {
    forall i, j :: 0 <= i < j < |r| ==> key(r[i]) != key(r[j])
  }

  /** No element of `r` has a key in `seen`. */
  predicate AvoidsKeys<T, K>(r: seq<T>, key: T -> K, seen: set<K>) {
    forall i :: 0 <= i < |r| ==> key(r[i]) !in seen
  }

  /** What the dedup loop keeps has pairwise distinct keys, none of them in
      `seen`. */
  lemma {:induction false} DedupFromDistinct<T, K>(s: seq<T>, key: T -> K, seen: set<K>)
    ensures AvoidsKeys(DedupFrom(s, key, seen), key, seen)
    ensures DistinctKeys(DedupFrom(s, key, seen), key)
    decreases |s|
  {
    if s != [] {
      if key(s[0]) in seen {
        DedupFromDistinct(s[1..], key, seen);
        assert DedupFrom(s, key, seen) == DedupFrom(s[1..], key, seen);
      } else {
        var seen' := seen + {key(s[0])};
        DedupFromDistinct(s[1..], key, seen');
        var r := DedupFrom(s, key, seen);
        var t := DedupFrom(s[1..], key, seen');
        assert r == [s[0]] + t;
        forall i | 0 <= i < |r| ensures key(r[i]) !in seen {
          if i > 0 { assert r[i] == t[i - 1]; }
        }
        forall i, j | 0 <= i < j < |r| ensures key(r[i]) != key(r[j]) {
          assert r[j] == t[j - 1];
          assert key(t[j - 1]) !in seen';
          if i > 0 { assert r[i] == t[i - 1]; }
        }
      }
    }
  }

  /** The keys kept are exactly the keys of the input that were not already
      seen: no key is lost. */
  lemma {:induction false} DedupFromKeySet<T, K>(s: seq<T>, key: T -> K, seen: set<K>)
    ensures KeySet(DedupFrom(s, key, seen), key) == KeySet(s, key) - seen
    decreases |s|
  {
    if s != [] {
      var k := key(s[0]);
      var seen' := if k in seen then seen else seen + {k};
      DedupFromKeySet(s[1..], key, seen');
      assert forall x :: x in s <==> x == s[0] || x in s[1..];
      assert KeySet(s, key) == {k} + KeySet(s[1..], key);
      if k !in seen {
        var t := DedupFrom(s[1..], key, seen');
        assert forall x :: x in [s[0]] + t <==> x == s[0] || x in t;
        assert KeySet([s[0]] + t, key) == {k} + KeySet(t, key);
      }
    }
  }

  /** Every element that is the first of its key (and whose key was not
      already seen) is kept. */
  lemma {:induction false} DedupFromKeepsFirst<T, K>(s: seq<T>, key: T -> K, seen: set<K>)
    ensures forall i :: 0 <= i < |s| && key(s[i]) !in seen && IsFirstOccurrence(s, key, i) ==>
      s[i] in DedupFrom(s, key, seen)
    decreases |s|
  {
    if s != [] {
      var k := key(s[0]);
      var seen' := if k in seen then seen else seen + {k};
      DedupFromKeepsFirst(s[1..], key, seen');
      forall i | 0 <= i < |s| && key(s[i]) !in seen && IsFirstOccurrence(s, key, i)
        ensures s[i] in DedupFrom(s, key, seen)
      {
        if i > 0 {
          assert s[i] == s[1..][i - 1];
          assert key(s[0]) != key(s[i]);
          assert IsFirstOccurrence(s[1..], key, i - 1) by {
            forall j | 0 <= j < i - 1 ensures key(s[1..][j]) != key(s[1..][i - 1]) {
              assert s[1..][j] == s[j + 1];
            }
          }
        }
      }
    }
  }

  /** The properties of `FirstByKey` the callers rely on, together. */
  lemma FirstByKeyProperties<T, K>(s: seq<T>, key: T -> K)
    ensures var r := FirstByKey(s, key);
      && IsSubsequence(r, s)
      && (forall x :: x in r ==> x in s)
      && DistinctKeys(r, key)
      && KeySet(r, key) == KeySet(s, key)
      && (forall i :: 0 <= i < |s| && IsFirstOccurrence(s, key, i) ==> s[i] in r)
  {
    DedupFromSubsequence(s, key, {});
    SubsequenceMembers(FirstByKey(s, key), s);
    DedupFromDistinct(s, key, {});
    DedupFromKeySet(s, key, {});
    DedupFromKeepsFirst(s, key, {});
  }

  /** Dedup precedence: of two elements with one key, the earlier one wins and
      the later one (when it is a different record) is dropped. */
  lemma FirstByKeyPrecedence<T, K>(s: seq<T>, key: T -> K, i: nat, j: nat)
    requires i < j < |s| && key(s[i]) == key(s[j]) && s[i] != s[j]
    requires IsFirstOccurrence(s, key, i)
    ensures s[i] in FirstByKey(s, key) && s[j] !in FirstByKey(s, key)
  {
    FirstByKeyProperties(s, key);
    var r := FirstByKey(s, key);
    if s[j] in r {
      assert false;
    }
  }

  // ---------------------------------------------------------------------------
  // Stable sort, largest key first

  /** Non-increasing by `key`. */
  predicate SortedDesc<T>(s: seq<T>, key: T -> int) {
    forall i, j :: 0 <= i < j < |s| ==> key(s[i]) >= key(s[j])
  }

  /** The elements of `s` whose key is `k`, in order. */
  function WithKey<T>(s: seq<T>, key: T -> int, k: int): seq<T>
    decreases |s|
  {
    if s == [] then []
    else (if key(s[0]) == k then [s[0]] else []) + WithKey(s[1..], key, k)
  }

  /** Puts `x` in front of the first element of `t` whose key is not larger
      than its own, so that `x` stays ahead of the elements that tie with it. */
  function InsertDesc<T>(x: T, t: seq<T>, key: T -> int): seq<T>
    decreases |t|
  {
    if t == [] || key(t[0]) <= key(x) then [x] + t
    else [t[0]] + InsertDesc(x, t[1..], key)
  }

  /** Python's `sorted(s, key=key, reverse=True)`: largest key first, and
      elements with equal keys keep their original order. */
  function SortDesc<T>(s: seq<T>, key: T -> int): seq<T>
    decreases |s|
  {
    if s == [] then [] else InsertDesc(s[0], SortDesc(s[1..], key), key)
  }

  lemma {:induction false} InsertDescMultiset<T>(x: T, t: seq<T>, key: T -> int)
    ensures multiset(InsertDesc(x, t, key)) == multiset(t) + multiset{x}
    decreases |t|
  {
    if !(t == [] || key(t[0]) <= key(x)) {
      InsertDescMultiset(x, t[1..], key);
      assert t == [t[0]] + t[1..];
    }
  }

  lemma {:induction false} InsertDescSorted<T>(x: T, t: seq<T>, key: T -> int)
    requires SortedDesc(t, key)
    ensures var r := InsertDesc(x, t, key);
      && SortedDesc(r, key)
      && |r| == |t| + 1
      && key(r[0]) == (if t == [] || key(t[0]) <= key(x) then key(x) else key(t[0]))
    decreases |t|
  {
    var r := InsertDesc(x, t, key);
    if !(t == [] || key(t[0]) <= key(x)) {
      var u := InsertDesc(x, t[1..], key);
      InsertDescSorted(x, t[1..], key);
      assert r == [t[0]] + u;
      assert key(t[0]) >= key(u[0]) by {
        if |t| > 1 { assert key(t[0]) >= key(t[1]); assert t[1..][0] == t[1]; }
      }
      forall i, j | 0 <= i < j < |r| ensures key(r[i]) >= key(r[j]) {
        assert r[j] == u[j - 1];
        if i == 0 {
          assert key(u[0]) >= key(u[j - 1]) by { if j > 1 { assert 0 < j - 1; } }
        } else {
          assert r[i] == u[i - 1];
        }
      }
    }
  }

  lemma {:induction false} InsertDescWithKey<T>(x: T, t: seq<T>, key: T -> int, k: int)
    ensures WithKey(InsertDesc(x, t, key), key, k) == (if key(x) == k then [x] else []) + WithKey(t, key, k)
    decreases |t|
  {
    if t == [] || key(t[0]) <= key(x) {
      WithKeyCons(x, t, key, k);
    } else {
      InsertDescWithKey(x, t[1..], key, k);
      WithKeyCons(t[0], InsertDesc(x, t[1..], key), key, k);
      WithKeyCons(t[0], t[1..], key, k);
      assert [t[0]] + t[1..] == t;
    }
  }

  lemma WithKeyCons<T>(a: T, s: seq<T>, key: T -> int, k: int)
    ensures WithKey([a] + s, key, k) == (if key(a) == k then [a] else []) + WithKey(s, key, k)
  {
    assert ([a] + s)[1..] == s;
  }

  /** `SortDesc` sorts, permutes, and is stable: for every key, the elements
      with that key appear in the order they had in the input. */
  lemma {:induction false} SortDescProperties<T>(s: seq<T>, key: T -> int)
    ensures var r := SortDesc(s, key);
      && SortedDesc(r, key)
      && multiset(r) == multiset(s)
      && |r| == |s|
      && (forall k :: WithKey(r, key, k) == WithKey(s, key, k))
    decreases |s|
  {
    if s != [] {
      SortDescProperties(s[1..], key);
      var t := SortDesc(s[1..], key);
      InsertDescSorted(s[0], t, key);
      InsertDescMultiset(s[0], t, key);
      assert s == [s[0]] + s[1..];
      var r := SortDesc(s, key);
      assert |r| == |multiset(r)| == |multiset(s)| == |s|;
      forall k ensures WithKey(r, key, k) == WithKey(s, key, k) {
        InsertDescWithKey(s[0], t, key, k);
      }
    }
  }

  /** `WithKey` picks exactly the elements with the given key. */
  lemma {:induction false} WithKeyMembers<T>(s: seq<T>, key: T -> int, k: int)
    ensures forall y :: y in WithKey(s, key, k) <==> y in s && key(y) == k
    decreases |s|
  {
    if s != [] {
      WithKeyMembers(s[1..], key, k);
      assert forall y :: y in s <==> y == s[0] || y in s[1..];
    }
  }

  lemma WithKeyHead<T>(s: seq<T>, key: T -> int)
    requires s != []
    ensures WithKey(s, key, key(s[0])) != []
  {
  }

  /** In non-increasing sequences that agree on every `WithKey`, the first
      elements have the same key. */
  lemma SortedDescSameHeadKey<T>(a: seq<T>, b: seq<T>, key: T -> int)
    requires a != [] && b != []
    requires SortedDesc(a, key) && SortedDesc(b, key)
    requires forall k :: WithKey(a, key, k) == WithKey(b, key, k)
    ensures key(a[0]) == key(b[0])
  {
    var ka, kb := key(a[0]), key(b[0]);
    WithKeyMembers(a, key, kb);
    WithKeyMembers(b, key, kb);
    WithKeyMembers(a, key, ka);
    WithKeyMembers(b, key, ka);
    assert b[0] in WithKey(b, key, kb);
    var y :| y in WithKey(a, key, kb);
    var i :| 0 <= i < |a| && a[i] == y;
    assert ka >= kb by { if i > 0 { assert key(a[0]) >= key(a[i]); } }
    assert a[0] in WithKey(a, key, ka);
    var z :| z in WithKey(b, key, ka);
    var i' :| 0 <= i' < |b| && b[i'] == z;
    assert kb >= ka by { if i' > 0 { assert key(b[0]) >= key(b[i']); } }
  }

  /** Only one non-increasing order keeps every `WithKey`: so the properties
      of `SortDesc` above determine its result. */
  lemma {:induction false} SortedDescStableUnique<T>(a: seq<T>, b: seq<T>, key: T -> int)
    requires SortedDesc(a, key) && SortedDesc(b, key)
    requires forall k :: WithKey(a, key, k) == WithKey(b, key, k)
    ensures a == b
    decreases |a| + |b|
  {
    if a != [] && b == [] {
      WithKeyHead(a, key);
    } else if a == [] && b != [] {
      WithKeyHead(b, key);
    } else if a != [] && b != [] {
      SortedDescSameHeadKey(a, b, key);
      var k0 := key(a[0]);
      assert a[0] == b[0] by {
        assert WithKey(a, key, k0) == [a[0]] + WithKey(a[1..], key, k0);
        assert WithKey(b, key, k0) == [b[0]] + WithKey(b[1..], key, k0);
        assert WithKey(a, key, k0)[0] == a[0];
        assert WithKey(b, key, k0)[0] == b[0];
      }
      forall k ensures WithKey(a[1..], key, k) == WithKey(b[1..], key, k) {
        var head := if k0 == k then [a[0]] else [];
        assert WithKey(a, key, k) == head + WithKey(a[1..], key, k);
        assert WithKey(b, key, k) == head + WithKey(b[1..], key, k);
        assert (head + WithKey(a[1..], key, k))[|head|..] == WithKey(a[1..], key, k);
        assert (head + WithKey(b[1..], key, k))[|head|..] == WithKey(b[1..], key, k);
      }
      SortedDescStableUnique(a[1..], b[1..], key);
      assert a == [a[0]] + a[1..] && b == [b[0]] + b[1..];
    }
  }

  lemma {:induction false} InsertDescMembers<T>(x: T, t: seq<T>, key: T -> int)
    ensures forall y :: y in InsertDesc(x, t, key) <==> y == x || y in t
    decreases |t|
  {
    if !(t == [] || key(t[0]) <= key(x)) {
      InsertDescMembers(x, t[1..], key);
      assert forall y :: y in t <==> y == t[0] || y in t[1..];
    }
  }

  lemma InsertDescMember<T>(x: T, t: seq<T>, key: T -> int, z: T)
    requires z in InsertDesc(x, t, key)
    ensures z == x || z in t
  {
    InsertDescMembers(x, t, key);
  }

  /** The tail of a sequence with distinct keys has distinct keys, none of
      them the head's. */
  lemma DistinctKeysTail<T, K>(y: T, s: seq<T>, dk: T -> K)
    requires DistinctKeys([y] + s, dk)
    ensures DistinctKeys(s, dk)
    ensures forall z :: z in s ==> dk(z) != dk(y)
  {
    var c := [y] + s;
    forall i, j | 0 <= i < j < |s| ensures dk(s[i]) != dk(s[j]) {
      assert c[i + 1] == s[i] && c[j + 1] == s[j];
    }
    forall z | z in s ensures dk(z) != dk(y) {
      var j :| 0 <= j < |s| && s[j] == z;
      assert c[0] == y && c[j + 1] == z;
    }
  }

  /** Putting `y` in front of distinct keys keeps them distinct when `y`'s
      key is new. */
  lemma DistinctKeysCons<T, K>(y: T, s: seq<T>, dk: T -> K)
    requires DistinctKeys(s, dk) && forall z :: z in s ==> dk(z) != dk(y)
    ensures DistinctKeys([y] + s, dk)
  {
    var c := [y] + s;
    forall i, j | 0 <= i < j < |c| ensures dk(c[i]) != dk(c[j]) {
      assert c[j] == s[j - 1];
      if i > 0 { assert c[i] == s[i - 1]; }
    }
  }

  lemma {:induction false} InsertDescDistinct<T, K>(x: T, t: seq<T>, key: T -> int, dk: T -> K)
    requires DistinctKeys(t, dk) && forall z :: z in t ==> dk(z) != dk(x)
    ensures DistinctKeys(InsertDesc(x, t, key), dk)
    decreases |t|
  {
    if t == [] || key(t[0]) <= key(x) {
      DistinctKeysCons(x, t, dk);
    } else {
      assert t == [t[0]] + t[1..];
      DistinctKeysTail(t[0], t[1..], dk);
      assert forall z :: z in t[1..] ==> z in t;
      InsertDescDistinct(x, t[1..], key, dk);
      var u := InsertDesc(x, t[1..], key);
      assert InsertDesc(x, t, key) == [t[0]] + u;
      assert t[0] in t;
      forall z | z in u ensures dk(z) != dk(t[0]) {
        InsertDescMember(x, t[1..], key, z);
      }
      DistinctKeysCons(t[0], u, dk);
    }
  }

  /** Sorting never brings two records with one key together: distinct keys,
      for any key function, survive the sort. */
  lemma {:induction false} SortDescDistinct<T, K>(s: seq<T>, key: T -> int, dk: T -> K)
    requires DistinctKeys(s, dk)
    ensures DistinctKeys(SortDesc(s, key), dk)
    ensures forall y :: y in SortDesc(s, key) <==> y in s
    decreases |s|
  {
    if s != [] {
      assert s == [s[0]] + s[1..];
      DistinctKeysTail(s[0], s[1..], dk);
      var t := SortDesc(s[1..], key);
      SortDescDistinct(s[1..], key, dk);
      InsertDescMembers(s[0], t, key);
      forall z | z in t ensures dk(z) != dk(s[0]) {
        SortDescMember(s[1..], key, z);
      }
      InsertDescDistinct(s[0], t, key, dk);
    }
  }

  lemma SortDescMember<T>(s: seq<T>, key: T -> int, z: T)
    requires z in SortDesc(s, key)
    ensures z in s
  {
    SortDescProperties(s, key);
    assert z in multiset(SortDesc(s, key));
  }
}
