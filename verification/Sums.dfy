/** Weighted sums over finite maps and sequences. */
module Sums {

  ghost function SumMap<K, V>(m: map<K, V>, w: V -> int): int
    decreases |m|
  {
    if m.Keys == {} then 0
    else
      var k :| k in m.Keys;
      w(m[k]) + SumMap(m - {k}, w)
  }

  // Any key may be taken out first.
  lemma {:induction false} SumMapSplit<K, V>(m: map<K, V>, w: V -> int, k: K)
    requires k in m
    ensures SumMap(m, w) == w(m[k]) + SumMap(m - {k}, w)
    decreases |m|
  {
    var c :| c in m.Keys && SumMap(m, w) == w(m[c]) + SumMap(m - {c}, w);
    if c == k {
    } else {
      assert m - {c} - {k} == m - {k} - {c};
      SumMapSplit(m - {c}, w, k);
      SumMapSplit(m - {k}, w, c);
    }
  }

  lemma {:induction false} SumMapPut<K, V>(m: map<K, V>, w: V -> int, k: K, v: V)
    ensures SumMap(m[k := v], w) == SumMap(m, w) + w(v) - (if k in m then w(m[k]) else 0)
  {
    SumMapSplit(m[k := v], w, k);
    assert m[k := v] - {k} == m - {k};
    if k in m {
      SumMapSplit(m, w, k);
    } else {
      assert m - {k} == m;
    }
  }

  lemma {:induction false} SumMapNonNegative<K, V(!new)>(m: map<K, V>, w: V -> int)
    requires forall v :: w(v) >= 0
    ensures SumMap(m, w) >= 0
    ensures SumMap(m, w) > 0 <==> exists k :: k in m && w(m[k]) > 0
    decreases |m|
  {
    if m.Keys == {} {
    } else {
      var c :| c in m.Keys && SumMap(m, w) == w(m[c]) + SumMap(m - {c}, w);
      SumMapNonNegative(m - {c}, w);
      if k :| k in m && w(m[k]) > 0 {
        if k != c { assert k in m - {c} && w((m - {c})[k]) > 0; }
      }
    }
  }

  ghost function SumSeq<T>(s: seq<T>, w: T -> int): int {
    if s == [] then 0 else SumSeq(s[..|s| - 1], w) + w(s[|s| - 1])
  }

  lemma SumSeqPush<T>(s: seq<T>, w: T -> int, x: T)
    ensures SumSeq(s + [x], w) == SumSeq(s, w) + w(x)
  {
    assert (s + [x])[..|s|] == s;
  }

  lemma {:induction false} SumSeqUpdate<T>(s: seq<T>, w: T -> int, i: nat, x: T)
    requires i < |s|
    ensures SumSeq(s[i := x], w) == SumSeq(s, w) - w(s[i]) + w(x)
  {
    var n := |s| - 1;
    if i == n {
      assert s[i := x][..n] == s[..n];
    } else {
      assert s[i := x][..n] == s[..n][i := x];
      SumSeqUpdate(s[..n], w, i, x);
    }
  }
}
