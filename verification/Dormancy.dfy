/** What the dormancy flag says about the committed transactions of the account. */
module Dormancy {
  import opened Domain
  import opened Sums
  import opened History
  import opened Window
  import opened Account
  import opened Limit
  import opened Sandwich
  import opened Context

  lemma {:induction false} WithinWitness(q: seq<Tx>, lo: int, hi: int)
    requires Within(q, lo, hi) > 0
    ensures exists u :: u in q && lo <= u.createdAt <= hi
  {
    var last := q[|q| - 1];
    if lo <= last.createdAt <= hi {
      assert last in q;
    } else {
      WithinWitness(q[..|q| - 1], lo, hi);
      var u :| u in q[..|q| - 1] && lo <= u.createdAt <= hi;
      assert u in q;
    }
  }

  ghost predicate ActiveWithin(q: seq<Tx>, lo: int, hi: int) {
    exists u :: u in q && lo <= u.createdAt <= hi
  }

  ghost predicate ActiveAfter(q: seq<Tx>, t: int) {
    exists u :: u in q && t < u.createdAt
  }

  // A non-zero count is evidence of a committed transaction of the last 48 hours, or else the sorted set shows
  // a member dated after the candidate, and so was some committed transaction; that cannot be while instants
  // never go back. A zero count means the sorted set was left empty.
  ghost predicate CountMeans(c: Acct, phase: Phase) {
    phase.Reads? ==>
      var t := phase.tx.createdAt;
      && (phase.m.count > 0 ==>
            ActiveWithin(c.txs, t - 2 * DAY, t) || (phase.m.later && ActiveAfter(c.txs, t)))
      && (Ordered(c.seen) ==> !phase.m.later)
      && (phase.m.count == 0 ==> !c.window.Exists())
  }

  // A marker stands for a committed transaction of the 24 hours before its instant.
  lemma MarkerIsEvidence(c: Acct, phase: Phase, t: nat)
    requires Dated(c, phase) && c.window.marker.Some? && t - DAY <= c.window.marker.value.score
    ensures ActiveWithin(c.txs, t - 2 * DAY, t) || (t < c.window.marker.value.score && ActiveAfter(c.txs, t))
  {
    var k := c.window.marker.value;
    WithinWitness(c.txs[..c.base], k.score - DAY, k.score);
    var u :| u in c.txs[..c.base] && k.score - DAY <= u.createdAt <= k.score;
    assert u in c.txs;
  }

  lemma WindowIsEvidence(c: Acct, phase: Phase, t: nat)
    requires Dated(c, phase) && c.window.Exists()
    requires forall u | u in c.window.live :: u in c.txs && t - DAY <= u.createdAt
    requires c.window.marker.Some? ==> t - DAY <= c.window.marker.value.score
    ensures ActiveWithin(c.txs, t - 2 * DAY, t) || (ShowsLater(c.window, t) && ActiveAfter(c.txs, t))
  {
    hide Dated;
    if c.window.live != [] {
      assert c.window.live[0] in c.window.live;
    } else {
      MarkerIsEvidence(c, phase, t);
    }
  }

  lemma ReadTrims(w: Window, t: nat, answer: nat)
    ensures var r := Read(w, t, answer);
      && (forall u | u in r.window.live :: t - DAY <= u.createdAt)
      && (r.window.marker.Some? ==> t - DAY <= r.window.marker.value.score)
      && (r.count == 0 <==> !r.window.Exists())
  {
    KeptMembers(w.live, t - DAY);
  }

  lemma NothingLater(c: Acct, phase: Phase)
    requires Dated(c, phase) && InOrder(c) && Current(c, phase) && phase.Reads? && Ordered(c.seen)
    requires forall u | u in c.window.live :: u in c.txs
    ensures !ShowsLater(c.window, phase.tx.createdAt)
  {
    if c.window.marker.Some? {
      LastIsLatest(c.seen, c.window.marker.value.score);
    }
  }

  lemma CountMeansByRead(c: Acct, a: AccountId, tx: Tx, h: Table, now: int)
    requires Ledger(c, Out, a)
    requires var (d, m) := OnRead(c, tx, h, now);
      Dated(d, Reads(tx, m)) && InOrder(d) && Current(d, Reads(tx, m))
    ensures var (d, m) := OnRead(c, tx, h, now); CountMeans(d, Reads(tx, m))
  {
    hide OnRead, Ledger, Dated, InOrder, Current, Ordered, ShowsLater, ActiveWithin, ActiveAfter, Recovered,
      Unrecovered;
    var (d, m) := OnRead(c, tx, h, now);
    ReadShape(c, tx, h, now);
    ReadIs(c, tx, h, now);
    ReadTrims(c.window, tx.createdAt, Answer(tx, h));
    MembersAfterRead(c, a, tx, h, now);
    if m.count > 0 {
      WindowIsEvidence(d, Reads(tx, m), tx.createdAt);
    }
    if Ordered(d.seen) {
      NothingLater(d, Reads(tx, m));
    }
  }

  lemma ReadIs(c: Acct, tx: Tx, h: Table, now: int)
    ensures var (d, m) := OnRead(c, tx, h, now); var r := Read(c.window, tx.createdAt, Answer(tx, h));
      d.window == r.window && m.count == r.count && m.volume == r.volume
  {
    hide Read, Recovered, Unrecovered, Answer, TrimmedBy, ShowsLater;
  }

  lemma CountMeansByFlush(c: Acct, phase: Phase, expired: bool)
    requires CountMeans(c, phase)
    ensures CountMeans(OnFlush(c, phase, expired), phase)
  {
  }

  lemma RowsAreEvidence(h: Table, a: AccountId, q: seq<Tx>, lo: int, hi: int)
    requires Backed(h, a, q)
    ensures Selected(h, a, lo, hi) != map[] ==> ActiveWithin(q, lo, hi)
    ensures Selected(h, a, lo, hi) == map[] ==>
              forall u | u in q && u.from == a && lo <= u.createdAt <= hi :: KeyOf(u) !in h
  {
    var rows := Selected(h, a, lo, hi);
    if rows != map[] {
      var k :| k in rows;
      var u :| u in q && KeyOf(u) == k;
      assert u.createdAt == k.createdAt;
    } else {
      forall u | u in q && u.from == a && lo <= u.createdAt <= hi ensures KeyOf(u) !in h {
        assert KeyOf(u) !in rows;
      }
    }
  }

  // Not dormant: some committed transaction is dated within the last 30 days, or the sorted set shows a member
  // dated after the candidate, and so was some committed one. Dormant: every committed transaction of those
  // days is missing from the table and from the sorted set alike.
  lemma DormancySound(c: Acct, phase: Phase, a: AccountId, h: Table, senders: nat)
    requires phase.Reads? && CountMeans(c, phase) && Ledger(c, phase, a) && Backed(h, a, c.txs)
    ensures var t := phase.tx.createdAt; var stats := FetchGroupedStats(h, a, t - THIRTY_DAYS, t);
      var ctx := ContextOf(phase.m.volume, phase.m.count, senders,
                           GroupCount(stats), GroupTotal(stats), GroupP2p(stats));
      && (!ctx.isDormantAccount ==>
            || ActiveWithin(c.txs, t - THIRTY_DAYS, t)
            || (!Ordered(c.seen) && phase.m.later && ActiveAfter(c.txs, t)))
      && (ctx.isDormantAccount ==>
            forall u | u in c.txs && t - THIRTY_DAYS <= u.createdAt <= t ::
              KeyOf(u) !in h && u !in c.window.live)
  {
    hide Selected, Backed, Ordered,  ContextOf, FetchGroupedStats, GroupCount, GroupTotal, GroupP2p;
    var t := phase.tx.createdAt;
    ContextFromRaw(h, a, t - THIRTY_DAYS, t, phase.m.volume, phase.m.count, senders);
    RowsAreEvidence(h, a, c.txs, t - THIRTY_DAYS, t);
  }
}
