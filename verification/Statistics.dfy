/** The 30-day statistics against transaction lists: what the grouped query, the account context and the P2P rule
    say about the transactions behind the rows. */
module Statistics {
  import opened Domain
  import opened Sums
  import opened History
  import opened Context
  import opened Pipeline
  import opened Convergence

  // The list holds each transaction behind a row of the account once, and nothing else.
  ghost predicate Lists(once: seq<Tx>, a: AccountId, h: Table) {
    && DistinctKeys(once)
    && (forall u | u in once :: u.from == a && KeyOf(u) in h && h[KeyOf(u)].amount == u.amount)
    && (forall k | k in h && k.from == a :: exists u :: u in once && KeyOf(u) == k)
  }

  // The transactions of one kind dated in the closed interval from `lo` to `hi`.
  function Chosen(q: seq<Tx>, p2p: bool, lo: int, hi: int): seq<Tx> {
    if q == [] then []
    else
      var u := q[|q| - 1];
      Chosen(q[..|q| - 1], p2p, lo, hi) + if u.isP2p == p2p && lo <= u.createdAt <= hi then [u] else []
  }

  lemma {:induction false} ChosenMembers(q: seq<Tx>, p2p: bool, lo: int, hi: int)
    ensures forall u :: u in Chosen(q, p2p, lo, hi) <==> u in q && u.isP2p == p2p && lo <= u.createdAt <= hi
  {
    if q != [] {
      ChosenMembers(q[..|q| - 1], p2p, lo, hi);
      assert q == q[..|q| - 1] + [q[|q| - 1]];
    }
  }

  lemma {:induction false} ChosenDistinct(q: seq<Tx>, p2p: bool, lo: int, hi: int)
    requires DistinctKeys(q)
    ensures DistinctKeys(Chosen(q, p2p, lo, hi))
  {
    if q != [] {
      var rest, u := q[..|q| - 1], q[|q| - 1];
      LastIsNew(q);
      ChosenDistinct(rest, p2p, lo, hi);
      ChosenMembers(rest, p2p, lo, hi);
    }
  }

  lemma ChosenTotal(q: seq<Tx>, p2p: bool, lo: int, hi: int)
    requires q != []
    ensures var u := q[|q| - 1];
      Total(Chosen(q, p2p, lo, hi)) == Total(Chosen(q[..|q| - 1], p2p, lo, hi))
                                       + if u.isP2p == p2p && lo <= u.createdAt <= hi then u.amount else 0
  {
    hide Total;
    var c := Chosen(q[..|q| - 1], p2p, lo, hi);
    TotalSnoc(c, q[|q| - 1]);
    assert c + [] == c;
  }

  lemma {:induction false} ChosenSplits(q: seq<Tx>, lo: int, hi: int)
    ensures Total(Chosen(q, false, lo, hi)) + Total(Chosen(q, true, lo, hi)) == Within(q, lo, hi)
  {
    if q != [] {
      ChosenSplits(q[..|q| - 1], lo, hi);
      ChosenTotal(q, false, lo, hi);
      ChosenTotal(q, true, lo, hi);
      hide Chosen, Total;
    }
  }

  lemma LastIsNew(q: seq<Tx>)
    requires q != [] && DistinctKeys(q)
    ensures DistinctKeys(q[..|q| - 1])
    ensures forall v | v in q[..|q| - 1] :: v in q && KeyOf(v) != KeyOf(q[|q| - 1])
  {
    var n := |q| - 1;
    forall v | v in q[..n] ensures v in q && KeyOf(v) != KeyOf(q[n]) {
      var i :| 0 <= i < n && q[..n][i] == v;
      assert q[i] == v;
    }
  }

  // The table has the keys and amounts of the list.
  ghost predicate Matches(m: map<HKey, nat>, q: seq<Tx>) {
    && (forall u | u in q :: KeyOf(u) in m && m[KeyOf(u)] == u.amount)
    && forall k | k in m :: exists u :: u in q && KeyOf(u) == k
  }

  lemma MatchesLess(m: map<HKey, nat>, q: seq<Tx>)
    requires q != [] && DistinctKeys(q) && Matches(m, q)
    ensures var u := q[|q| - 1];
      KeyOf(u) in m && m[KeyOf(u)] == u.amount && Matches(m - {KeyOf(u)}, q[..|q| - 1])
  {
    hide DistinctKeys, KeyOf;
    var rest, u := q[..|q| - 1], q[|q| - 1];
    LastIsNew(q);
    assert u in q;
    forall k | k in m - {KeyOf(u)} ensures exists v :: v in rest && KeyOf(v) == k {
      var v :| v in q && KeyOf(v) == k;
      assert q == rest + [u];
    }
  }

  // So it has its sum and size.
  lemma {:induction false} TableIsList(m: map<HKey, nat>, q: seq<Tx>)
    requires DistinctKeys(q) && Matches(m, q)
    ensures MapSum(m) == Total(q) && |m| == |q|
  {
    hide MapSum, DistinctKeys, KeyOf, Matches;
    if q == [] {
      NoTable(m);
    } else {
      var u := q[|q| - 1];
      LastIsNew(q);
      MatchesLess(m, q);
      TableIsList(m - {KeyOf(u)}, q[..|q| - 1]);
      MapSumRemove(m, KeyOf(u));
      CardRemove(m, KeyOf(u));
    }
  }

  lemma NoTable(m: map<HKey, nat>)
    requires Matches(m, [])
    ensures MapSum(m) == |m| == 0
  {
    assert m == map[];
  }

  lemma KindIsList(h: Table, a: AccountId, once: seq<Tx>, p2p: bool, lo: int, hi: int)
    requires Lists(once, a, h)
    ensures var m := SelectedKind(h, a, lo, hi, p2p);
      MapSum(m) == Total(Chosen(once, p2p, lo, hi)) && |m| == |Chosen(once, p2p, lo, hi)|
  {
    var m, q := SelectedKind(h, a, lo, hi, p2p), Chosen(once, p2p, lo, hi);
    ChosenMembers(once, p2p, lo, hi);
    ChosenDistinct(once, p2p, lo, hi);
    forall k | k in m ensures exists u :: u in q && KeyOf(u) == k {
      var u :| u in once && KeyOf(u) == k;
      assert u in q;
    }
    TableIsList(m, q);
  }

  // What the grouped query should return for a kind.
  function StatOf(q: seq<Tx>, p2p: bool): seq<Stat> {
    if q == [] then [] else [Stat(Some(p2p), Some(|q|), Some(Total(q)))]
  }

  lemma GroupIsStat(h: Table, a: AccountId, once: seq<Tx>, p2p: bool, lo: int, hi: int)
    requires Lists(once, a, h)
    ensures Group(h, a, lo, hi, p2p) == StatOf(Chosen(once, p2p, lo, hi), p2p)
  {
    KindIsList(h, a, once, p2p, lo, hi);
    assert SelectedKind(h, a, lo, hi, p2p) == map[] <==> |SelectedKind(h, a, lo, hi, p2p)| == 0;
  }

  // The grouped query returns one row per kind that occurs, with the number and the sum of the transactions of
  // that kind dated in the window; the context adds them up and takes the P2P sum from the P2P row.
  lemma StatsOfList(h: Table, a: AccountId, once: seq<Tx>, lo: int, hi: int)
    requires Lists(once, a, h)
    ensures var stats := FetchGroupedStats(h, a, lo, hi);
      var p2p, other := Chosen(once, true, lo, hi), Chosen(once, false, lo, hi);
      && stats == (if other == [] then [] else [Stat(Some(false), Some(|other|), Some(Total(other)))])
                  + (if p2p == [] then [] else [Stat(Some(true), Some(|p2p|), Some(Total(p2p)))])
      && GroupP2p(stats) == Total(p2p) && GroupTotal(stats) == Within(once, lo, hi)
      && GroupCount(stats) == |other| + |p2p|
  {
    hide Chosen, SelectedKind, Lists;
    GroupIsStat(h, a, once, true, lo, hi);
    GroupIsStat(h, a, once, false, lo, hi);
    KindIsList(h, a, once, true, lo, hi);
    KindIsList(h, a, once, false, lo, hi);
    ChosenSplits(once, lo, hi);
    KindsPartition(h, a, lo, hi);
    GroupsAreRaw(h, a, lo, hi);
  }

  // The context built from them: dormant if and only if no entry is cached and no listed transaction lies in the
  // window; the ratio exceeds 0.80 if and only if more than four fifths of the listed amount is P2P.
  lemma ContextOfList(
    h: Table, a: AccountId, once: seq<Tx>, lo: int, hi: int, volume: nat, count: nat, senders: nat)
    requires Lists(once, a, h)
    ensures var stats := FetchGroupedStats(h, a, lo, hi);
      var ctx := ContextOf(volume, count, senders, GroupCount(stats), GroupTotal(stats), GroupP2p(stats));
      && ctx.volume24h == volume && ctx.txCount24h == count && ctx.uniqueCounterparties24h == senders
      && (ctx.isDormantAccount <==> count == 0 && forall u | u in once :: !(lo <= u.createdAt <= hi))
      && ctx.p2pRatio30d == (if Within(once, lo, hi) == 0 then 0.0
                             else Total(Chosen(once, true, lo, hi)) as real / Within(once, lo, hi) as real)
      && (ctx.p2pRatio30d > 0.80 <==> 5 * Total(Chosen(once, true, lo, hi)) > 4 * Within(once, lo, hi))
  {
    hide Chosen, Lists, FetchGroupedStats;
    var stats := FetchGroupedStats(h, a, lo, hi);
    StatsOfList(h, a, once, lo, hi);
    ChosenMembers(once, true, lo, hi);
    ChosenMembers(once, false, lo, hi);
    ChosenSplits(once, lo, hi);
    assert Chosen(once, true, lo, hi) != [] ==> Chosen(once, true, lo, hi)[0] in Chosen(once, true, lo, hi);
    assert Chosen(once, false, lo, hi) != [] ==> Chosen(once, false, lo, hi)[0] in Chosen(once, false, lo, hi);
    RatioLaws(GroupP2p(stats), GroupTotal(stats));
  }

  // --- Which lists there are -----------------------------------------------------------------

  // Once everything is projected: each committed transaction of the account once.
  lemma OnceIsListed(h: Table, es: seq<Event>, a: AccountId, once: seq<Tx>)
    requires HistoryIs(h, es) && EachOnce(once, a, es)
    ensures Lists(once, a, h)
  {
    forall u | u in once ensures KeyOf(u) in h && h[KeyOf(u)].amount == u.amount {
      var e :| e in es && e.tx == u;
    }
    forall k | k in h && k.from == a ensures exists u :: u in once && KeyOf(u) == k {
      var e :| e in es && KeyOf(e.tx) == k;
      var u :| u in once && KeyOf(u) == KeyOf(e.tx);
    }
  }

  // At any time: some of the committed ones.
  lemma {:induction false} KeysListed(h: Table, a: AccountId, q: seq<Tx>, keys: set<HKey>) returns (once: seq<Tx>)
    requires Backed(h, a, q) && forall k | k in keys :: k in h && k.from == a
    ensures DistinctKeys(once) && forall u | u in once :: u in q && u.from == a && KeyOf(u) in keys
    ensures forall u | u in once :: h[KeyOf(u)].amount == u.amount
    ensures forall k | k in keys :: exists u :: u in once && KeyOf(u) == k
    decreases |keys|
  {
    if keys == {} {
      once := [];
    } else {
      var k :| k in keys;
      var rest := KeysListed(h, a, q, keys - {k});
      var u :| u in q && KeyOf(u) == k;
      once := rest + [u];
      forall j | j in keys ensures exists v :: v in once && KeyOf(v) == j {
        if j == k {
          assert u in once;
        } else {
          assert j in keys - {k};
          var v :| v in rest && KeyOf(v) == j;
          assert v in once;
        }
      }
    }
  }

  lemma ListExists(h: Table, a: AccountId, q: seq<Tx>)
    requires Backed(h, a, q)
    ensures exists once :: Lists(once, a, h) && forall u | u in once :: u in q
  {
    var keys := set k | k in h && k.from == a;
    var once := KeysListed(h, a, q, keys);
    assert forall k | k in h && k.from == a :: k in keys;
    assert Lists(once, a, h);
  }
}
