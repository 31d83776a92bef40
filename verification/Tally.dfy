/** Counting how often a value occurs in a sequence or a map, seen through a projection. */
module Tally {

  function InSeq<V, P(==)>(s: seq<V>, f: V -> P, p: P): nat {
    if s == [] then 0 else InSeq(s[..|s| - 1], f, p) + if f(s[|s| - 1]) == p then 1 else 0
  }

  ghost function InMap<K(!new), V, P>(m: map<K, V>, f: V -> P, p: P): nat {
    if m == map[] then 0
    else
      var k :| k in m;
      InMap(m - {k}, f, p) + if f(m[k]) == p then 1 else 0
  }

  lemma {:induction false} SeqAppend<V, P>(s: seq<V>, t: seq<V>, f: V -> P, p: P)
    ensures InSeq(s + t, f, p) == InSeq(s, f, p) + InSeq(t, f, p)
  {
    if t == [] {
      assert s + t == s;
    } else {
      SeqAppend(s, t[..|t| - 1], f, p);
      assert (s + t)[..|s + t| - 1] == s + t[..|t| - 1];
    }
  }

  lemma SeqPopFront<V, P>(s: seq<V>, f: V -> P, p: P)
    requires s != []
    ensures InSeq(s, f, p) == InSeq(s[1..], f, p) + if f(s[0]) == p then 1 else 0
  {
    assert s == [s[0]] + s[1..];
    SeqAppend([s[0]], s[1..], f, p);
  }

  lemma {:induction false} SeqHas<V, P>(s: seq<V>, f: V -> P, p: P)
    ensures InSeq(s, f, p) > 0 <==> exists i :: 0 <= i < |s| && f(s[i]) == p
  {
    if s != [] {
      SeqHas(s[..|s| - 1], f, p);
    }
  }

  /** Which entry is taken out first does not matter. */
  lemma {:induction false} MapDrop<K(!new), V, P>(m: map<K, V>, f: V -> P, p: P, k: K)
    requires k in m
    ensures InMap(m, f, p) == InMap(m - {k}, f, p) + if f(m[k]) == p then 1 else 0
    decreases |m|
  {
    var j :| j in m && InMap(m, f, p) == InMap(m - {j}, f, p) + if f(m[j]) == p then 1 else 0;
    if j != k {
      MapDrop(m - {j}, f, p, k);
      MapDrop(m - {k}, f, p, j);
      assert m - {j} - {k} == m - {k} - {j};
    }
  }

  lemma MapPut<K(!new), V, P>(m: map<K, V>, f: V -> P, p: P, k: K, v: V)
    requires k !in m
    ensures InMap(m[k := v], f, p) == InMap(m, f, p) + if f(v) == p then 1 else 0
  {
    MapDrop(m[k := v], f, p, k);
    assert m[k := v] - {k} == m;
  }

  lemma MapReplace<K(!new), V, P>(m: map<K, V>, f: V -> P, p: P, k: K, v: V)
    requires k in m && f(v) == f(m[k])
    ensures InMap(m[k := v], f, p) == InMap(m, f, p)
  {
    MapDrop(m[k := v], f, p, k);
    MapDrop(m, f, p, k);
    assert m[k := v] - {k} == m - {k};
  }

  lemma {:induction false} MapHas<K(!new), V, P>(m: map<K, V>, f: V -> P, p: P)
    ensures InMap(m, f, p) > 0 <==> exists k :: k in m && f(m[k]) == p
    decreases |m|
  {
    if m != map[] {
      var j :| j in m && InMap(m, f, p) == InMap(m - {j}, f, p) + if f(m[j]) == p then 1 else 0;
      MapHas(m - {j}, f, p);
      if k :| k in m && f(m[k]) == p {
        assert k == j || k in m - {j};
      }
    }
  }

  /** Two entries with the same projection are counted twice. */
  lemma MapTwice<K(!new), V, P>(m: map<K, V>, f: V -> P, j: K, k: K)
    requires j in m && k in m && j != k && f(m[j]) == f(m[k])
    ensures InMap(m, f, f(m[j])) >= 2
  {
    MapDrop(m, f, f(m[j]), j);
    MapDrop(m - {j}, f, f(m[j]), k);
  }
}
