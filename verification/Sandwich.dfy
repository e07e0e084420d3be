/** How close the volume a read returns is to the committed log, for instants that never go back. */
module Sandwich {
  import opened Domain
  import opened Sums
  import opened History
  import opened Window
  import opened Account
  import opened Limit

  // The live entries were committed after the latest table read, and the marker is worth at most
  // what had been committed by then in the 24 hours before its instant.
  ghost predicate Dated(c: Acct, phase: Phase) {
    && c.base <= |c.txs|
    && Total(c.window.live) + Total(Pending(phase)) <= Total(c.txs[c.base..])
    && (c.window.marker.Some? ==>
          var k := c.window.marker.value;
          c.seeded && 0 < k.amount <= Within(c.txs[..c.base], k.score - DAY, k.score) && k.score in c.seen)
  }

  ghost predicate InOrder(c: Acct)
    requires c.base <= |c.txs|
  {
    Ordered(c.seen) ==>
      && (forall u | u in c.txs :: |c.seen| > 0 && u.createdAt <= c.seen[|c.seen| - 1])
      && (c.window.marker.Some? ==> forall u | u in c.txs[c.base..] :: c.window.marker.value.score <= u.createdAt)
  }

  // The volume in hand lies between the exact 24-hour sum less what was invisible, and the exact
  // 48-hour sum; with no marker ever written and nothing invisible it is the 24-hour sum.
  ghost predicate Between(c: Acct, phase: Phase) {
    phase.Reads? && Ordered(c.seen) ==>
      var t, v := phase.tx.createdAt, phase.m.volume;
      && Within(c.txs, t - DAY, t) <= v + Within(phase.m.missed, t - DAY, t)
      && v <= Within(c.txs, t - 2 * DAY, t)
      && (!c.seeded && phase.m.missed == [] ==> v == Within(c.txs, t - DAY, t))
  }

  ghost predicate Close(c: Acct, phase: Phase) {
    Dated(c, phase) && InOrder(c) && Between(c, phase)
  }

  lemma OrderedSnoc(seen: seq<nat>, t: nat)
    requires Ordered(seen + [t])
    ensures Ordered(seen)
    ensures |seen| > 0 ==> seen[|seen| - 1] <= t
    ensures forall x | x in seen :: x <= t
    ensures InTrail(seen + [t], t - DAY)
  {
    var q := seen + [t];
    assert forall i | 0 <= i < |seen| :: q[i] == seen[i];
    assert q[|seen|] == t;
    assert forall i | 0 <= i < |q| :: q[i] <= q[|seen|];
  }

  lemma {:induction false} KeptTotalLess(q: seq<Tx>, start: int)
    ensures Total(Kept(q, start)) <= Total(q)
  {
    KeptTotal(q, start);
    FromBounds(q, start, start);
  }

  lemma {:induction false} AllWithin(q: seq<Tx>, lo: int, hi: int)
    requires forall u | u in q :: lo <= u.createdAt <= hi
    ensures Total(q) == Within(q, lo, hi)
  {
    FromEvery(q, lo);
    WithinEvery(q, lo, hi);
  }

  lemma NewerSpan(c: Acct, t: nat)
    requires c.base <= |c.txs| && InOrder(c) && Ordered(c.seen + [t])
    requires c.window.marker.Some? && t - DAY <= c.window.marker.value.score
    ensures forall u | u in c.txs[c.base..] :: t - 2 * DAY <= u.createdAt <= t
  {
    OrderedSnoc(c.seen, t);
    assert forall u | u in c.txs[c.base..] :: u in c.txs;
  }

  // After a trim that leaves the marker, marker and entries together stay within 48 hours.
  lemma MarkerSpan(c: Acct, t: nat)
    requires Dated(c, Out) && InOrder(c) && Ordered(c.seen + [t])
    requires c.window.marker.Some? && t - DAY <= c.window.marker.value.score
    ensures c.window.marker.value.amount + Total(c.window.live) <= Within(c.txs, t - 2 * DAY, t)
  {
    hide InOrder, Ordered, Within, Total;
    MarkerIsPast(c, t);
    NewerSpan(c, t);
    var k := c.window.marker.value;
    var older, newer := c.txs[..c.base], c.txs[c.base..];
    assert c.txs == older + newer;
    AllWithin(newer, t - 2 * DAY, t);
    WithinWidens(older, k.score - DAY, k.score, t - 2 * DAY, t);
    WithinConcat(older, newer, t - 2 * DAY, t);
  }

  lemma MarkerIsPast(c: Acct, t: nat)
    requires Dated(c, Out) && Ordered(c.seen + [t]) && c.window.marker.Some?
    ensures c.window.marker.value.score <= t
  {
    OrderedSnoc(c.seen, t);
  }

  lemma EntriesSpan(c: Acct, a: AccountId, t: nat)
    requires Ledger(c, Out, a) && Dated(c, Out) && InOrder(c) && Ordered(c.seen + [t])
    ensures From(c.window.live, t - DAY) <= Within(c.txs, t - DAY, t) == From(c.txs, t - DAY)
  {
    OrderedSnoc(c.seen, t);
    TrailShrinks(c.seen, t, t - DAY);
    WithinEvery(c.txs, t - DAY, t);
  }

  lemma UpperByHit(c: Acct, a: AccountId, t: nat)
    requires Ledger(c, Out, a) && Dated(c, Out) && InOrder(c) && Ordered(c.seen + [t])
    ensures c.window.Trim(t - DAY).Volume() <= Within(c.txs, t - 2 * DAY, t)
    ensures !c.seeded ==> c.window.Trim(t - DAY).Volume() <= Within(c.txs, t - DAY, t)
  {
    EntriesSpan(c, a, t);
    KeptTotal(c.window.live, t - DAY);
    WithinWidens(c.txs, t - DAY, t, t - 2 * DAY, t);
    if c.window.marker.Some? && t - DAY <= c.window.marker.value.score {
      MarkerSpan(c, t);
      FromBounds(c.window.live, t - DAY, t);
    }
  }

  lemma UpperByRead(c: Acct, a: AccountId, t: nat, answer: nat)
    requires Ledger(c, Out, a) && Dated(c, Out) && InOrder(c) && Ordered(c.seen + [t])
    requires answer <= Within(c.txs, t - DAY, t)
    ensures var v := Read(c.window, t, answer).volume;
      && v <= Within(c.txs, t - 2 * DAY, t)
      && (!c.seeded && (answer == 0 || c.window.Exists()) ==> v <= Within(c.txs, t - DAY, t))
  {
    if c.window.Exists() {
      UpperByHit(c, a, t);
    } else {
      WithinWidens(c.txs, t - DAY, t, t - 2 * DAY, t);
    }
  }

  lemma LowerFromDecision(c: Acct, phase: Phase)
    requires phase.Reads? && Decision(c, phase) && InTrail(c.seen, phase.tx.createdAt - DAY)
    requires forall u | u in phase.m.missed :: u.createdAt <= phase.tx.createdAt
    ensures var t := phase.tx.createdAt;
      Within(c.txs, t - DAY, t) <= phase.m.volume + Within(phase.m.missed, t - DAY, t)
  {
    var t := phase.tx.createdAt;
    FromBounds(c.txs, t - DAY, t);
    WithinEvery(phase.m.missed, t - DAY, t);
  }

  lemma DatedByRead(c: Acct, tx: Tx, answer: nat, recovered: seq<Tx>, rest: seq<Tx>, now: int)
    requires Dated(c, Out) && answer <= Within(c.txs, tx.createdAt - DAY, tx.createdAt)
    ensures var (d, m) := ReadWith(c, tx, answer, recovered, rest, now); Dated(d, Reads(tx, m))
  {
    hide ShowsLater, TrimmedBy;
    var t := tx.createdAt;
    var (d, m) := ReadWith(c, tx, answer, recovered, rest, now);
    assert t in d.seen && forall x | x in c.seen :: x in d.seen;
    if c.window.Exists() {
      KeptTotalLess(c.window.live, t - DAY);
    } else {
      assert c.txs[..|c.txs|] == c.txs && c.txs[|c.txs|..] == [];
    }
  }

  lemma InOrderByRead(c: Acct, tx: Tx, answer: nat, recovered: seq<Tx>, rest: seq<Tx>, now: int)
    requires Dated(c, Out) && InOrder(c)
    ensures var (d, m) := ReadWith(c, tx, answer, recovered, rest, now); d.base <= |d.txs| && InOrder(d)
  {
    hide ShowsLater, TrimmedBy, Within;
    if Ordered(c.seen + [tx.createdAt]) {
      OrderedSnoc(c.seen, tx.createdAt);
    }
  }

  lemma BetweenFromBounds(c: Acct, phase: Phase)
    requires phase.Reads? && Decision(c, phase) && Ordered(c.seen) && Current(c, phase)
    requires forall u | u in phase.m.missed :: u.createdAt <= phase.tx.createdAt
    requires phase.m.volume <= Within(c.txs, phase.tx.createdAt - 2 * DAY, phase.tx.createdAt)
    requires !c.seeded ==> phase.m.volume <= Within(c.txs, phase.tx.createdAt - DAY, phase.tx.createdAt)
    ensures Between(c, phase)
  {
    assert InTrail(c.seen, phase.tx.createdAt - DAY) by {
      assert forall i | 0 <= i < |c.seen| :: c.seen[i] <= c.seen[|c.seen| - 1];
    }
    LowerFromDecision(c, phase);
  }

  lemma BetweenVacuous(c: Acct, phase: Phase)
    requires !Ordered(c.seen)
    ensures Between(c, phase)
  {
  }

  lemma LostIsPast(c: Acct, a: AccountId, t: nat)
    requires Ledger(c, Out, a) && Dated(c, Out) && InOrder(c) && Ordered(c.seen + [t])
    ensures forall u | u in c.lost :: u.createdAt <= t
  {
    OrderedSnoc(c.seen, t);
  }

  lemma BetweenByRead(c: Acct, tx: Tx, answer: nat, recovered: seq<Tx>, rest: seq<Tx>, now: int)
    requires Ordered(c.seen + [tx.createdAt])
    requires forall u | u in c.lost || u in rest :: u.createdAt <= tx.createdAt
    requires var t := tx.createdAt; var v := Read(c.window, t, answer).volume;
      && v <= Within(c.txs, t - 2 * DAY, t)
      && (!c.seeded && (answer == 0 || c.window.Exists()) ==> v <= Within(c.txs, t - DAY, t))
    requires var (d, m) := ReadWith(c, tx, answer, recovered, rest, now);
      Decision(d, Reads(tx, m)) && Current(d, Reads(tx, m))
    ensures var (d, m) := ReadWith(c, tx, answer, recovered, rest, now); Between(d, Reads(tx, m))
  {
    hide Decision, Current, Between, TrimmedBy, Within, InTrail;
    var (d, m) := ReadWith(c, tx, answer, recovered, rest, now);
    BetweenFromBounds(d, Reads(tx, m));
  }

  lemma AnswerFacts(c: Acct, tx: Tx, h: Table)
    requires Backed(h, tx.from, c.txs)
    ensures Answer(tx, h) <= Within(c.txs, tx.createdAt - DAY, tx.createdAt)
    ensures forall u | u in Unrecovered(c.lost, h, tx.createdAt) :: u in c.lost
  {
    SumAtMostCommitted(h, tx.from, c.txs, tx.createdAt - DAY, tx.createdAt);
    RecoveredMembers(c.lost, h, tx.createdAt);
  }

  lemma CloseByRead(c: Acct, a: AccountId, tx: Tx, h: Table, now: int)
    requires Ledger(c, Out, a) && Close(c, Out) && Backed(h, tx.from, c.txs)
    requires var (d, m) := OnRead(c, tx, h, now); Decision(d, Reads(tx, m)) && Current(d, Reads(tx, m))
    ensures var (d, m) := OnRead(c, tx, h, now); Close(d, Reads(tx, m))
  {
    hide Dated, InOrder, Between, Ledger, Decision, Backed, Read, Recovered, Unrecovered, Answer;
    var answer := Answer(tx, h);
    var recovered, rest := Recovered(c.lost, h, tx.createdAt), Unrecovered(c.lost, h, tx.createdAt);
    AnswerFacts(c, tx, h);
    DatedByRead(c, tx, answer, recovered, rest, now);
    InOrderByRead(c, tx, answer, recovered, rest, now);
    if Ordered(c.seen + [tx.createdAt]) {
      LostIsPast(c, a, tx.createdAt);
      UpperByRead(c, a, tx.createdAt, answer);
      BetweenByRead(c, tx, answer, recovered, rest, now);
    } else {
      BetweenVacuous(OnRead(c, tx, h, now).0, Reads(tx, OnRead(c, tx, h, now).1));
    }
  }

  lemma DropAppend(q: seq<Tx>, t: Tx, n: nat)
    requires n <= |q|
    ensures (q + [t])[..n] == q[..n] && (q + [t])[n..] == q[n..] + [t]
    ensures forall u :: u in q[n..] + [t] <==> u in q[n..] || u == t
  {
  }

  lemma DropAppendOnly(q: seq<Tx>, t: Tx, n: nat)
    requires n <= |q|
    ensures (q + [t])[..n] == q[..n] && (q + [t])[n..] == q[n..] + [t]
  {
  }

  lemma DatedByCommit(c: Acct, tx: Tx, m: Metrics, status: TransactionStatus)
    requires Dated(c, Reads(tx, m))
    ensures Dated(OnCommit(c, tx, m, status), Committed(tx, m))
  {
    hide OnCommit, Within, WithFate, Oversights;
    CommitShape(c, tx, m, status);
    DropAppendOnly(c.txs, tx, c.base);
    TotalSnoc(c.txs[c.base..], tx);
    assert Total([tx]) == tx.amount && Total([]) == 0;
  }

  lemma LastIsLatest(seen: seq<nat>, k: nat)
    requires Ordered(seen) && k in seen
    ensures k <= seen[|seen| - 1]
  {
  }

  lemma InOrderByCommit(c: Acct, tx: Tx, m: Metrics, status: TransactionStatus)
    requires Dated(c, Reads(tx, m)) && InOrder(c) && Current(c, Reads(tx, m))
    ensures InOrder(OnCommit(c, tx, m, status))
  {
    hide OnCommit, Ordered, InTrail, Within, Total;
    CommitShape(c, tx, m, status);
    DropAppend(c.txs, tx, c.base);
    if Ordered(c.seen) && c.window.marker.Some? {
      LastIsLatest(c.seen, c.window.marker.value.score);
    }
  }

  lemma CloseByCommit(c: Acct, tx: Tx, m: Metrics, status: TransactionStatus)
    requires Close(c, Reads(tx, m)) && Current(c, Reads(tx, m))
    ensures Close(OnCommit(c, tx, m, status), Committed(tx, m))
  {
    DatedByCommit(c, tx, m, status);
    InOrderByCommit(c, tx, m, status);
  }

  lemma CloseByAdd(c: Acct, tx: Tx, m: Metrics, now: int)
    requires Close(c, Committed(tx, m))
    ensures Close(OnAdd(c, tx, now), Settled(tx, m, true))
  {
    hide Within, Ordered;
    TotalConcat(c.window.live, [tx]);
  }

  lemma CloseByDrop(c: Acct, tx: Tx, m: Metrics)
    requires Close(c, Committed(tx, m))
    ensures Close(OnDrop(c, tx), Settled(tx, m, false))
  {
  }

  lemma CloseByFlush(c: Acct, phase: Phase, expired: bool)
    requires Close(c, phase)
    ensures Close(OnFlush(c, phase, expired), phase)
  {
  }

  lemma CloseByClose(c: Acct, phase: Phase)
    requires Close(c, phase) && (phase.Reads? || phase.Settled?)
    ensures Close(OnClose(c, phase), Out)
  {
  }
}
