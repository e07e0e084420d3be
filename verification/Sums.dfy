/** Sums of amounts over transaction lists and over keyed tables. */
module Sums {
  import opened Domain

  // Total of the amounts dated at or after `s`.
  function From(q: seq<Tx>, s: int): nat {
    if q == [] then 0
    else From(q[..|q| - 1], s) + if q[|q| - 1].createdAt >= s then q[|q| - 1].amount else 0
  }

  // Total of the amounts dated in the closed interval from `lo` to `hi`.
  function Within(q: seq<Tx>, lo: int, hi: int): nat {
    if q == [] then 0
    else
      var last := q[|q| - 1];
      Within(q[..|q| - 1], lo, hi) + if lo <= last.createdAt <= hi then last.amount else 0
  }

  function Total(q: seq<Tx>): nat {
    if q == [] then 0 else Total(q[..|q| - 1]) + q[|q| - 1].amount
  }

  lemma FromSnoc(q: seq<Tx>, t: Tx, s: int)
    ensures From(q + [t], s) == From(q, s) + if t.createdAt >= s then t.amount else 0
  {
    assert (q + [t])[..|q|] == q;
  }

  lemma WithinSnoc(q: seq<Tx>, t: Tx, lo: int, hi: int)
    ensures Within(q + [t], lo, hi) == Within(q, lo, hi) + if lo <= t.createdAt <= hi then t.amount else 0
  {
    assert (q + [t])[..|q|] == q;
  }

  lemma TotalSnoc(q: seq<Tx>, t: Tx)
    ensures Total(q + [t]) == Total(q) + t.amount
  {
    assert (q + [t])[..|q|] == q;
  }

  lemma {:induction false} FromConcat(p: seq<Tx>, q: seq<Tx>, s: int)
    ensures From(p + q, s) == From(p, s) + From(q, s)
  {
    if q == [] {
      assert p + q == p;
    } else {
      assert (p + q)[..|p + q| - 1] == p + q[..|q| - 1];
      FromConcat(p, q[..|q| - 1], s);
    }
  }

  lemma {:induction false} TotalConcat(p: seq<Tx>, q: seq<Tx>)
    ensures Total(p + q) == Total(p) + Total(q)
  {
    if q == [] {
      assert p + q == p;
    } else {
      assert (p + q)[..|p + q| - 1] == p + q[..|q| - 1];
      TotalConcat(p, q[..|q| - 1]);
    }
  }

  lemma {:induction false} FromBounds(q: seq<Tx>, s: int, hi: int)
    ensures Within(q, s, hi) <= From(q, s) <= Total(q)
  {
    if q != [] {
      FromBounds(q[..|q| - 1], s, hi);
    }
  }

  lemma {:induction false} FromNone(q: seq<Tx>, s: int)
    requires forall u | u in q :: u.createdAt < s
    ensures From(q, s) == 0
  {
    if q != [] {
      FromNone(q[..|q| - 1], s);
    }
  }

  lemma {:induction false} FromEvery(q: seq<Tx>, s: int)
    requires forall u | u in q :: s <= u.createdAt
    ensures From(q, s) == Total(q)
  {
    if q != [] {
      FromEvery(q[..|q| - 1], s);
    }
  }

  lemma {:induction false} WithinEvery(q: seq<Tx>, s: int, hi: int)
    requires forall u | u in q :: u.createdAt <= hi
    ensures Within(q, s, hi) == From(q, s)
  {
    if q != [] {
      WithinEvery(q[..|q| - 1], s, hi);
    }
  }

  lemma {:induction false} WithinConcat(p: seq<Tx>, q: seq<Tx>, lo: int, hi: int)
    ensures Within(p + q, lo, hi) == Within(p, lo, hi) + Within(q, lo, hi)
  {
    if q == [] {
      assert p + q == p;
    } else {
      assert (p + q)[..|p + q| - 1] == p + q[..|q| - 1];
      WithinConcat(p, q[..|q| - 1], lo, hi);
    }
  }

  lemma {:induction false} WithinWidens(q: seq<Tx>, lo: int, hi: int, lo': int, hi': int)
    requires lo' <= lo && hi <= hi'
    ensures Within(q, lo, hi) <= Within(q, lo', hi')
  {
    if q != [] {
      WithinWidens(q[..|q| - 1], lo, hi, lo', hi');
    }
  }

  // The entries a trim at `start` keeps.
  function Kept(q: seq<Tx>, start: int): seq<Tx> {
    if q == [] then []
    else
      var rest := Kept(q[..|q| - 1], start);
      if q[|q| - 1].createdAt < start then rest else rest + [q[|q| - 1]]
  }

  // The entries a trim at `start` removes.
  function Removed(q: seq<Tx>, start: int): seq<Tx> {
    if q == [] then []
    else
      var rest := Removed(q[..|q| - 1], start);
      if q[|q| - 1].createdAt < start then rest + [q[|q| - 1]] else rest
  }

  lemma {:induction false} TrimSplits(q: seq<Tx>, start: int, lo: int, hi: int)
    ensures Within(Kept(q, start), lo, hi) + Within(Removed(q, start), lo, hi) == Within(q, lo, hi)
  {
    if q != [] {
      TrimSplits(q[..|q| - 1], start, lo, hi);
      WithinSnoc(Kept(q[..|q| - 1], start), q[|q| - 1], lo, hi);
      WithinSnoc(Removed(q[..|q| - 1], start), q[|q| - 1], lo, hi);
    }
  }

  lemma {:induction false} RemovedMembers(q: seq<Tx>, start: int)
    ensures forall u | u in Removed(q, start) :: u in q && u.createdAt < start
  {
    if q != [] {
      RemovedMembers(q[..|q| - 1], start);
      assert q == q[..|q| - 1] + [q[|q| - 1]];
    }
  }

  lemma {:induction false} WithinNone(q: seq<Tx>, lo: int, hi: int)
    requires forall u | u in q :: !(lo <= u.createdAt <= hi)
    ensures Within(q, lo, hi) == 0
  {
    if q != [] {
      WithinNone(q[..|q| - 1], lo, hi);
    }
  }

  lemma {:induction false} KeptKeepsWindow(q: seq<Tx>, start: int, s: int)
    requires start <= s
    ensures From(Kept(q, start), s) == From(q, s)
  {
    if q != [] {
      KeptKeepsWindow(q[..|q| - 1], start, s);
      FromSnoc(Kept(q[..|q| - 1], start), q[|q| - 1], s);
    }
  }

  lemma {:induction false} KeptTotal(q: seq<Tx>, start: int)
    ensures Total(Kept(q, start)) == From(q, start)
  {
    if q != [] {
      KeptTotal(q[..|q| - 1], start);
      TotalSnoc(Kept(q[..|q| - 1], start), q[|q| - 1]);
    }
  }

  lemma {:induction false} KeptMembers(q: seq<Tx>, start: int)
    ensures forall u :: u in Kept(q, start) <==> u in q && start <= u.createdAt
  {
    if q != [] {
      KeptMembers(q[..|q| - 1], start);
      assert q == q[..|q| - 1] + [q[|q| - 1]];
    }
  }

  lemma {:induction false} KeptAll(q: seq<Tx>, start: int)
    requires forall u | u in q :: start <= u.createdAt
    ensures Kept(q, start) == q
  {
    if q != [] {
      KeptAll(q[..|q| - 1], start);
      assert q == q[..|q| - 1] + [q[|q| - 1]];
    }
  }

  lemma {:induction false} KeptNone(q: seq<Tx>, start: int)
    requires forall u | u in q :: u.createdAt < start
    ensures Kept(q, start) == []
  {
    if q != [] {
      KeptNone(q[..|q| - 1], start);
    }
  }

  // --- Keyed tables -----------------------------------------------------

  // Total of the values of a finite map.
  ghost function MapSum<K(!new)>(m: map<K, nat>): nat
    decreases |m|
  {
    if m == map[] then 0
    else
      var k :| k in m;
      assert |m - {k}| < |m| by { CardRemove(m, k); }
      m[k] + MapSum(m - {k})
  }

  lemma CardRemove<K, V>(m: map<K, V>, k: K)
    requires k in m
    ensures |m - {k}| == |m| - 1
  {
    assert (m - {k}).Keys == m.Keys - {k};
    assert |m.Keys| == |m| && |(m - {k}).Keys| == |m - {k}|;
  }

  lemma {:induction false} MapSumRemove<K(!new)>(m: map<K, nat>, k: K)
    requires k in m
    ensures MapSum(m) == m[k] + MapSum(m - {k})
    decreases |m|
  {
    assert m != map[];
    var j :| j in m && MapSum(m) == m[j] + MapSum(m - {j});
    if j != k {
      CardRemove(m, j);
      CardRemove(m, k);
      MapSumRemove(m - {j}, k);
      MapSumRemove(m - {k}, j);
      assert m - {j} - {k} == m - {k} - {j};
    }
  }

  lemma MapSumAdd<K(!new)>(m: map<K, nat>, k: K, v: nat)
    requires k !in m
    ensures MapSum(m[k := v]) == MapSum(m) + v
  {
    MapSumRemove(m[k := v], k);
    assert m[k := v] - {k} == m;
  }

  lemma UnionRemove<K, V>(m: map<K, V>, n: map<K, V>, k: K)
    requires m.Keys !! n.Keys && k in n
    ensures (m + n) - {k} == m + (n - {k})
    ensures k in m + n && (m + n)[k] == n[k]
    ensures m.Keys !! (n - {k}).Keys
  {
  }

  lemma {:induction false} MapSumUnion<K(!new)>(m: map<K, nat>, n: map<K, nat>)
    requires m.Keys !! n.Keys
    ensures MapSum(m + n) == MapSum(m) + MapSum(n)
    decreases |n|
  {
    if k :| k in n {
      UnionRemove(m, n, k);
      CardRemove(n, k);
      MapSumUnion(m, n - {k});
      MapSumRemove(n, k);
      MapSumRemove(m + n, k);
    } else {
      assert n == map[];
      assert m + n == m;
    }
  }
}
