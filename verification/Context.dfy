/** The account context: 24-hour metrics combined with 30-day statistics. */
module Context {
  import opened Domain
  import opened Sums
  import opened History

  function CountOf(s: Stat): nat { if s.txCount.Some? then s.txCount.value else 0 }

  function AmountOf(s: Stat): nat { if s.totalAmount.Some? then s.totalAmount.value else 0 }

  function GroupCount(stats: seq<Stat>): nat {
    if stats == [] then 0 else GroupCount(stats[..|stats| - 1]) + CountOf(stats[|stats| - 1])
  }

  function GroupTotal(stats: seq<Stat>): nat {
    if stats == [] then 0 else GroupTotal(stats[..|stats| - 1]) + AmountOf(stats[|stats| - 1])
  }

  // The amount of the last P2P group: a later group overwrites an earlier one.
  function GroupP2p(stats: seq<Stat>): nat {
    if stats == [] then 0
    else if stats[|stats| - 1].isP2p == Some(true) then AmountOf(stats[|stats| - 1])
    else GroupP2p(stats[..|stats| - 1])
  }

  // A missing count or total counts as zero.
  lemma {:induction false} NothingGrouped(stats: seq<Stat>)
    ensures GroupCount(stats) == 0 <==> forall i | 0 <= i < |stats| :: stats[i].txCount in {None, Some(0)}
    ensures GroupTotal(stats) == 0 <==> forall i | 0 <= i < |stats| :: stats[i].totalAmount in {None, Some(0)}
  {
    if stats != [] {
      NothingGrouped(stats[..|stats| - 1]);
    }
  }

  // The P2P amount is that of the last P2P group, and zero without one.
  lemma {:induction false} LastP2pGroup(stats: seq<Stat>, k: nat)
    requires k < |stats| && stats[k].isP2p == Some(true)
    requires forall j | k < j < |stats| :: stats[j].isP2p != Some(true)
    ensures GroupP2p(stats) == match stats[k].totalAmount case None => 0 case Some(v) => v
  {
    if k < |stats| - 1 {
      LastP2pGroup(stats[..|stats| - 1], k);
    }
  }

  lemma {:induction false} NoP2pGroup(stats: seq<Stat>)
    requires forall j | 0 <= j < |stats| :: stats[j].isP2p != Some(true)
    ensures GroupP2p(stats) == 0
  {
    if stats != [] {
      NoP2pGroup(stats[..|stats| - 1]);
    }
  }

  function Ratio(p2p: nat, total: nat): real {
    if total > 0 then p2p as real / total as real else 0.0
  }

  function ContextOf(volume: nat, count: nat, senders: nat, count30d: nat, total: nat, p2p: nat): AccountContext {
    AccountContext(volume, count, senders, Ratio(p2p, total), count == 0 && count30d == 0)
  }

  method BuildAccountContext(volume: nat, count: nat, senders: nat, stats: seq<Stat>) returns (ctx: AccountContext)
    ensures ctx == ContextOf(volume, count, senders, GroupCount(stats), GroupTotal(stats), GroupP2p(stats))
    ensures ctx.isDormantAccount <==>
            count == 0 && forall i | 0 <= i < |stats| :: stats[i].txCount in {None, Some(0)}
    ensures (forall i | 0 <= i < |stats| :: stats[i].totalAmount in {None, Some(0)}) ==> ctx.p2pRatio30d == 0.0
    ensures (forall i | 0 <= i < |stats| :: stats[i].isP2p != Some(true)) ==> ctx.p2pRatio30d == 0.0
  {
    NothingGrouped(stats);
    if forall i | 0 <= i < |stats| :: stats[i].isP2p != Some(true) {
      NoP2pGroup(stats);
    }
    var totalCount30d, total30d, p2p30d: nat := 0, 0, 0;
    for i := 0 to |stats|
      invariant totalCount30d == GroupCount(stats[..i])
      invariant total30d == GroupTotal(stats[..i])
      invariant p2p30d == GroupP2p(stats[..i])
    {
      assert stats[..i + 1][..i] == stats[..i];
      var stat := stats[i];
      var sum := if stat.totalAmount.Some? then stat.totalAmount.value else 0;
      totalCount30d := totalCount30d + if stat.txCount.Some? then stat.txCount.value else 0;
      total30d := total30d + sum;
      if stat.isP2p == Some(true) {
        p2p30d := sum;
      }
    }
    assert stats[..|stats|] == stats;
    var isDormant := count == 0 && totalCount30d == 0;
    var ratio := 0.0;
    if total30d > 0 {
      ratio := p2p30d as real / total30d as real;
    }
    ctx := AccountContext(volume, count, senders, ratio, isDormant);
  }

  lemma GroupsAreRaw(h: Table, a: AccountId, lo: int, hi: int)
    ensures var stats := FetchGroupedStats(h, a, lo, hi);
      && GroupCount(stats) == CountInWindow(h, a, lo, hi)
      && GroupTotal(stats) == SumAmount(h, a, lo, hi)
      && GroupP2p(stats) == MapSum(SelectedKind(h, a, lo, hi, true))
      && GroupP2p(stats) <= GroupTotal(stats)
  {
    KindsPartition(h, a, lo, hi);
    var f, t := Group(h, a, lo, hi, false), Group(h, a, lo, hi, true);
    if f == [] {
      assert f + t == t;
    } else if t == [] {
      assert f + t == f;
    } else {
      assert (f + t)[..1] == f && (f + t)[1] == t[0];
      assert GroupTotal(f) == GroupTotal([]) + AmountOf(f[0]);
      assert GroupTotal(f + t) == GroupTotal(f) + AmountOf(t[0]);
    }
  }

  lemma TimesKeepsOrder(x: real, y: real, t: real)
    requires x > y && t > 0.0
    ensures x * t > y * t
  {
    assert (x - y) * t > 0.0;
    assert (x - y) * t == x * t - y * t;
  }

  lemma QuotientExceeds(p: real, t: real, c: real)
    requires t > 0.0
    ensures p / t > c <==> p > c * t
  {
    var r := p / t;
    assert r * t == p;
    if r > c {
      TimesKeepsOrder(r, c, t);
    } else if r < c {
      TimesKeepsOrder(c, r, t);
    }
  }

  lemma QuotientAtLeastZero(p: real, t: real)
    requires p >= 0.0 && t > 0.0
    ensures p / t >= 0.0
  {
    var r := p / t;
    assert r * t == p;
    if r < 0.0 {
      TimesKeepsOrder(0.0, r, t);
    }
  }

  lemma RatioLaws(p2p: nat, total: nat)
    requires p2p <= total
    ensures 0.0 <= Ratio(p2p, total) <= 1.0
    ensures Ratio(p2p, total) > MAX_P2P_RATIO <==> 5 * p2p > 4 * total
  {
    if total > 0 {
      var p, t := p2p as real, total as real;
      QuotientExceeds(p, t, 1.0);
      QuotientExceeds(p, t, 0.80);
      QuotientAtLeastZero(p, t);
      assert p > 0.80 * t <==> 5.0 * p > 4.0 * t;
      assert 5.0 * p == (5 * p2p) as real && 4.0 * t == (4 * total) as real;
    }
  }

  // The loop over grouped rows agrees with the raw table: dormancy is "no cached entry and no row",
  // and the P2P rule fires exactly when more than four fifths of the 30-day amount is P2P.
  lemma ContextFromRaw(h: Table, a: AccountId, lo: int, hi: int, volume: nat, count: nat, senders: nat)
    ensures var stats := FetchGroupedStats(h, a, lo, hi);
      var ctx := ContextOf(volume, count, senders, GroupCount(stats), GroupTotal(stats), GroupP2p(stats));
      && (ctx.isDormantAccount <==> count == 0 && Selected(h, a, lo, hi) == map[])
      && 0.0 <= ctx.p2pRatio30d <= 1.0
      && (ctx.p2pRatio30d > MAX_P2P_RATIO <==>
          5 * MapSum(SelectedKind(h, a, lo, hi, true)) > 4 * SumAmount(h, a, lo, hi))
  {
    GroupsAreRaw(h, a, lo, hi);
    var stats := FetchGroupedStats(h, a, lo, hi);
    RatioLaws(GroupP2p(stats), GroupTotal(stats));
  }
}
