/** An option type and the facts about finite sums and sequences that several components share. */
module Prelude {

  datatype Option<+T> = None | Some(value: T)

  /** No element occurs twice. */
  ghost predicate Distinct<T>(s: seq<T>) {
    forall i, j :: 0 <= i < j < |s| ==> s[i] != s[j]
  }

  /** The elements of a sequence as a set. */
  function Elements<T>(s: seq<T>): set<T> {
    set x | x in s
  }

  lemma Grown<T>(s: seq<T>, x: T)
    ensures Elements(s + [x]) == Elements(s) + {x}
    ensures Distinct(s) && x !in Elements(s) ==> Distinct(s + [x])
  {
    if x !in Elements(s) {
      assert forall i :: 0 <= i < |s| ==> s[i] in Elements(s);
    }
  }

  lemma {:induction false} DistinctSize<T>(s: seq<T>)
    requires Distinct(s)
    ensures |Elements(s)| == |s|
  {
    if s == [] {
      assert Elements(s) == {};
    } else {
      var last := s[|s| - 1];
      var rest := s[..|s| - 1];
      DistinctSize(rest);
      assert last !in rest;
      assert Elements(s) == Elements(rest) + {last};
    }
  }

  /** A number that a finite set does not hold. */
  lemma {:induction false} FreshNat(s: set<nat>) returns (n: nat)
    ensures n !in s && forall m :: m in s ==> m < n
  {
    if s == {} {
      n := 0;
    } else {
      var m :| m in s;
      var rest := FreshNat(s - {m});
      n := if rest > m then rest else m + 1;
      assert s == (s - {m}) + {m};
    }
  }

  /** The sum of the values of a finite map. */
  ghost function SumMap<K(!new)>(m: map<K, int>): int
    decreases |m.Keys|
  {
    if m == map[] then 0 else
      var k :| k in m;
      assert |(m - {k}).Keys| < |m.Keys| by { assert (m - {k}).Keys == m.Keys - {k}; }
      m[k] + SumMap(m - {k})
  }

  lemma {:induction false} SumRemove<K(!new)>(m: map<K, int>, k: K)
    requires k in m
    ensures SumMap(m) == m[k] + SumMap(m - {k})
    decreases |m.Keys|
  {
    var c :| c in m && SumMap(m) == m[c] + SumMap(m - {c});
    if c != k {
      assert (m - {c}).Keys == m.Keys - {c};
      assert (m - {k}).Keys == m.Keys - {k};
      SumRemove(m - {c}, k);
      SumRemove(m - {k}, c);
      assert m - {c} - {k} == m - {k} - {c};
    }
  }

  /** Lowering a map of naturals by at least one at each key of `hit`, and nowhere raising it,
      lowers its sum by at least |hit|. */
  lemma {:induction false} SumDrop<K(!new)>(m: map<K, int>, m': map<K, int>, hit: set<K>)
    requires m'.Keys <= m.Keys
    requires hit <= m.Keys
    requires forall k :: k in m ==> m[k] >= 0
    requires forall k :: k in m' ==> 0 <= m'[k] <= m[k]
    requires forall k :: k in hit ==> m[k] >= 1 && (k in m' ==> m'[k] < m[k])
    ensures SumMap(m') + |hit| <= SumMap(m)
    decreases |m.Keys|
  {
    if m == map[] {
      assert m' == map[];
      assert hit == {};
    } else {
      var k :| k in m;
      assert (m - {k}).Keys == m.Keys - {k};
      SumDrop(m - {k}, m' - {k}, hit - {k});
      SumRemove(m, k);
      if k in m' {
        SumRemove(m', k);
      } else {
        assert m' - {k} == m';
      }
    }
  }

  lemma TimesNext(c: int, n: nat)
    ensures c * (n + 1) == c * n + c
  {
  }

  /** A bound on every value bounds the sum. */
  lemma {:induction false} SumBound<K(!new)>(m: map<K, int>, high: int)
    requires forall k :: k in m ==> m[k] <= high
    ensures SumMap(m) <= high * |m.Keys|
    decreases |m.Keys|
  {
    if m == map[] {
      assert m.Keys == {};
    } else {
      var k :| k in m;
      var rest := m - {k};
      assert rest.Keys == m.Keys - {k};
      SumRemove(m, k);
      SumBound(rest, high);
      TimesNext(high, |rest.Keys|);
      assert |m.Keys| == |rest.Keys| + 1;
    }
  }

  /** Raising the value by exactly one at each key of `hit` raises the sum by |hit|. */
  lemma {:induction false} SumShift<K(!new)>(m: map<K, int>, m': map<K, int>, hit: set<K>)
    requires m'.Keys == m.Keys && hit <= m.Keys
    requires forall k :: k in m ==> m'[k] == m[k] + if k in hit then 1 else 0
    ensures SumMap(m') == SumMap(m) + |hit|
    decreases |m.Keys|
  {
    if m == map[] {
      assert m' == map[];
      assert hit == {};
    } else {
      var k :| k in m;
      assert (m - {k}).Keys == m.Keys - {k};
      assert (m' - {k}).Keys == m'.Keys - {k};
      SumShift(m - {k}, m' - {k}, hit - {k});
      SumRemove(m, k);
      SumRemove(m', k);
    }
  }

  lemma {:induction false} SubsetSize<T>(a: set<T>, b: set<T>)
    requires a <= b
    ensures |a| <= |b|
  {
    assert b == a + (b - a);
  }

  // ----- sums over sequences of keys -----

  ghost function SumSeq<K>(keys: seq<K>, f: K -> int): int {
    if keys == [] then 0 else SumSeq(keys[..|keys| - 1], f) + f(keys[|keys| - 1])
  }

  lemma {:induction false} SumSeqAdd<K>(keys: seq<K>, f: K -> int, g: K -> int, h: K -> int)
    requires forall k :: k in keys ==> h(k) == f(k) + g(k)
    ensures SumSeq(keys, h) == SumSeq(keys, f) + SumSeq(keys, g)
  {
    if keys != [] {
      SumSeqAdd(keys[..|keys| - 1], f, g, h);
    }
  }

  lemma {:induction false} SumSeqSame<K>(keys: seq<K>, f: K -> int, g: K -> int)
    requires forall k :: k in keys ==> f(k) == g(k)
    ensures SumSeq(keys, f) == SumSeq(keys, g)
  {
    if keys != [] {
      SumSeqSame(keys[..|keys| - 1], f, g);
    }
  }

  lemma {:induction false} SumSeqZero<K>(keys: seq<K>, f: K -> int)
    requires forall k :: k in keys ==> f(k) == 0
    ensures SumSeq(keys, f) == 0
  {
    if keys != [] {
      SumSeqZero(keys[..|keys| - 1], f);
    }
  }

  /** A function that is `c` at one key and 0 at all others adds up to `c`, if the key is listed once. */
  lemma {:induction false} SumSeqOnce<K>(keys: seq<K>, f: K -> int, x: K, c: int)
    requires Distinct(keys)
    requires forall k :: k in keys ==> f(k) == if k == x then c else 0
    ensures SumSeq(keys, f) == if x in keys then c else 0
  {
    if keys != [] {
      var rest, last := keys[..|keys| - 1], keys[|keys| - 1];
      assert keys == rest + [last];
      SumSeqOnce(rest, f, x, c);
      assert last !in rest;
    }
  }

  ghost function SumSet<K(!new)>(keys: set<K>, f: K -> int): int {
    SumMap(map k | k in keys :: f(k))
  }

  lemma SumSetAdd<K(!new)>(keys: set<K>, x: K, f: K -> int)
    requires x !in keys
    ensures SumSet(keys + {x}, f) == SumSet(keys, f) + f(x)
  {
    var all := map k | k in keys + {x} :: f(k);
    SumRemove(all, x);
    assert all - {x} == map k | k in keys :: f(k);
  }

  /** Listing a set's elements once each adds up the same values. */
  lemma {:induction false} SumSeqIsSumSet<K(!new)>(keys: seq<K>, f: K -> int)
    requires Distinct(keys)
    ensures SumSeq(keys, f) == SumSet(Elements(keys), f)
  {
    if keys == [] {
      assert (map k | k in Elements(keys) :: f(k)) == map[];
    } else {
      var rest, last := keys[..|keys| - 1], keys[|keys| - 1];
      SumSeqIsSumSet(rest, f);
      assert keys == rest + [last];
      Grown(rest, last);
      assert last !in rest;
      SumSetAdd(Elements(rest), last, f);
    }
  }

  lemma SumSetSame<K(!new)>(keys: set<K>, f: K -> int, g: K -> int)
    requires forall k :: k in keys ==> f(k) == g(k)
    ensures SumSet(keys, f) == SumSet(keys, g)
  {
    assert (map k | k in keys :: f(k)) == map k | k in keys :: g(k);
  }

  /** Keys at which a function is 0 do not matter to its sum. */
  lemma {:induction false} SumSetWhere<K(!new)>(keys: set<K>, hit: set<K>, f: K -> int)
    requires hit <= keys && forall k :: k in keys && k !in hit ==> f(k) == 0
    ensures SumSet(keys, f) == SumSet(hit, f)
    decreases |keys - hit|
  {
    if keys - hit == {} {
      assert keys == hit;
    } else {
      var k :| k in keys - hit;
      var rest := keys - {k};
      assert keys == rest + {k};
      assert rest - hit == (keys - hit) - {k};
      SumSetAdd(rest, k, f);
      SumSetWhere(rest, hit, f);
    }
  }

  lemma {:induction false} SumSetOnes<K(!new)>(keys: set<K>, f: K -> int)
    requires forall k :: k in keys ==> f(k) == 1
    ensures SumSet(keys, f) == |keys|
  {
    if keys == {} {
      assert (map k | k in keys :: f(k)) == map[];
    } else {
      var k :| k in keys;
      assert keys == (keys - {k}) + {k};
      SumSetAdd(keys - {k}, k, f);
      SumSetOnes(keys - {k}, f);
    }
  }
}
