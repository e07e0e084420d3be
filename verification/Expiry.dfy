/** Key expiry: when no cache write failed and instants keep up with the clock, an expired key hides
    nothing that a later window could contain. */
module Expiry {
  import opened Domain
  import opened Sums
  import opened History
  import opened Window
  import opened Account
  import opened Limit
  import opened Pattern

  // No cache write failed, and nothing was cached or seeded while dated ahead of the clock.
  predicate OnTime(c: Acct) { c.faults == 0 && !c.ahead }

  // And no read was dated at or before the deadline of an earlier expiry.
  predicate Timely(c: Acct) { OnTime(c) && !c.late }

  // Everything the set held, and everything that went with an expired set, is at least 24 hours older
  // than the deadline it lived under.
  ghost predicate Aged(c: Acct, phase: Phase) {
    && (forall u | u in c.lost :: u.createdAt + DAY <= c.expiredUntil)
    && (forall u | u in c.window.live :: u.createdAt + DAY <= c.deadline)
    && (forall u | u in c.covered :: u.createdAt + DAY <= c.deadline || u.createdAt + DAY <= c.expiredUntil)
    && (c.window.marker.Some? ==> c.window.marker.value.score + DAY <= c.deadline)
    && (phase.Reads? ==> forall u | u in phase.m.missed :: u.createdAt + DAY <= c.expiredUntil)
    && (forall u | u in c.txs ::
          || u.createdAt + DAY <= c.deadline || u.createdAt + DAY <= c.expiredUntil
          || (phase.Committed? && u == phase.tx))
  }

  // The same for the outline: every committed turn lived under the deadline or under an expired one, and under
  // an expired one if a loss followed it.
  ghost predicate Spent(c: Acct, phase: Phase) {
    && (forall i | 0 <= i < |c.beats| && Commits(c.beats[i]) && !(phase.Committed? && i == |c.beats| - 1) ::
          c.beats[i].of.createdAt + DAY <= c.deadline || c.beats[i].of.createdAt + DAY <= c.expiredUntil)
    && (forall i, m | 0 <= i < m < |c.beats| && Commits(c.beats[i]) && Loses(c.beats[m]) ::
          c.beats[i].of.createdAt + DAY <= c.expiredUntil)
  }

  ghost predicate Fresh(c: Acct, phase: Phase, now: int) {
    && c.deadline <= now + DAY
    && (OnTime(c) ==> Aged(c, phase) && Spent(c, phase))
    && (Timely(c) ==>
          !c.blind && (phase.Reads? ==> forall u | u in phase.m.missed :: !InTrail(c.seen, u.createdAt)))
    && (c.faults == 0 ==> Unfailing(c.beats))
    && (c.faults == 0 && c.flushes == 0 ==>
          c.lost == [] && (phase.Reads? ==> phase.m.missed == []) && !c.blind && Whole(c.beats))
  }

  lemma FreshByTick(c: Acct, phase: Phase, now: int, later: int)
    requires Fresh(c, phase, now) && now <= later
    ensures Fresh(c, phase, later)
  {
    hide Aged, Spent, Unfailing, Whole, InTrail;
  }

  lemma AgedByRead(c: Acct, tx: Tx, h: Table, now: int)
    requires Fresh(c, Out, now)
    ensures var (d, m) := OnRead(c, tx, h, now); OnTime(d) ==> Aged(d, Reads(tx, m))
  {
    hide Kept, Recovered, Unrecovered, Answer, TrimmedBy, Spent, Unfailing, Whole, ShowsLater;
    RecoveredMembers(c.lost, h, tx.createdAt);
    KeptMembers(c.window.live, tx.createdAt - DAY);
  }

  lemma SpentByRead(c: Acct, tx: Tx, h: Table, now: int)
    requires Fresh(c, Out, now)
    ensures var (d, m) := OnRead(c, tx, h, now);
      && (OnTime(d) ==> Spent(d, Reads(tx, m))) && (d.faults == 0 ==> Unfailing(d.beats))
      && (d.faults == 0 && d.flushes == 0 ==> Whole(d.beats))
  {
    hide OnRead, Recovered, Unrecovered, Answer, Aged, InTrail;
    ReadShape(c, tx, h, now);
    ReadIsAhead(c, tx, h, now);
  }

  lemma ReadIsAhead(c: Acct, tx: Tx, h: Table, now: int)
    ensures var d := OnRead(c, tx, h, now).0; (c.ahead ==> d.ahead) && (c.late ==> d.late) && d.blind == c.blind
    ensures var d := OnRead(c, tx, h, now).0; !d.late ==> c.expiredUntil < tx.createdAt
  {
    hide Read, Recovered, Unrecovered, Answer, TrimmedBy, ShowsLater;
  }

  lemma FreshByRead(c: Acct, tx: Tx, h: Table, now: int)
    requires Fresh(c, Out, now)
    ensures var (d, m) := OnRead(c, tx, h, now); Fresh(d, Reads(tx, m), now)
  {
    hide OnRead, Recovered, Unrecovered, Answer, Spent, Unfailing, Whole;
    var t := tx.createdAt;
    var (d, m) := OnRead(c, tx, h, now);
    AgedByRead(c, tx, h, now);
    SpentByRead(c, tx, h, now);
    ReadShape(c, tx, h, now);
    ReadIsAhead(c, tx, h, now);
    RecoveredMembers(c.lost, h, t);
    assert d.seen[|c.seen|] == t;
    assert Unrecovered([], h, t) == [] by { NothingUnrecovered(h, t); }
  }

  lemma NothingUnrecovered(h: Table, t: nat)
    ensures Unrecovered([], h, t) == []
  {
  }

  // The fate of the last turn.
  lemma FateShape(c: Acct, tx: Tx, from: Fate, to: Fate)
    requires EndsWith(c, tx, from)
    ensures var r, n := WithFate(c.beats, to), |c.beats| - 1;
      |r| == n + 1 && r[..n] == c.beats[..n] && r[n] == Turn(tx, to, c.torn)
    ensures to == Entered && Unfailing(c.beats) ==> Unfailing(WithFate(c.beats, to))
    ensures to == Entered && Whole(c.beats) ==> Whole(WithFate(c.beats, to))
  {
  }

  lemma SpentByCommit(c: Acct, tx: Tx, m: Metrics, status: TransactionStatus)
    requires Spent(c, Reads(tx, m)) && EndsWith(c, tx, Aborted)
    ensures Spent(OnCommit(c, tx, m, status), Committed(tx, m))
  {
    hide InTrail, WithFate, Passes;
    FateShape(c, tx, Aborted, Entered);
    var d, n := OnCommit(c, tx, m, status), |c.beats| - 1;
    assert forall i | 0 <= i < n :: d.beats[i] == d.beats[..n][i] == c.beats[..n][i] == c.beats[i];
  }

  lemma FreshByCommit(c: Acct, tx: Tx, m: Metrics, status: TransactionStatus, now: int)
    requires Fresh(c, Reads(tx, m), now) && EndsWith(c, tx, Aborted)
    ensures Fresh(OnCommit(c, tx, m, status), Committed(tx, m), now)
  {
    hide InTrail, Spent, Unfailing, Whole, WithFate, Passes;
    if OnTime(c) {
      SpentByCommit(c, tx, m, status);
    }
    FateShape(c, tx, Aborted, Entered);
  }

  lemma FreshByAdd(c: Acct, tx: Tx, m: Metrics, now: int)
    requires Fresh(c, Committed(tx, m), now) && EndsWith(c, tx, Entered)
    ensures Fresh(OnAdd(c, tx, now), Settled(tx, m, true), now)
  {
    hide InTrail, Unfailing, Whole;
  }

  lemma FreshByDrop(c: Acct, tx: Tx, m: Metrics, now: int)
    requires Fresh(c, Committed(tx, m), now)
    ensures Fresh(OnDrop(c, tx), Settled(tx, m, false), now)
  {
    hide InTrail, Aged, Spent, Unfailing, Whole, WithFate;
  }

  lemma SpentByFlush(c: Acct, phase: Phase)
    requires Spent(c, phase)
    requires phase.Reads? || phase.Committed? ==> EndsWith(c, phase.tx, if phase.Reads? then Aborted else Entered)
    ensures Spent(OnFlush(c, phase, true), phase)
  {
    var d := OnFlush(c, phase, true);
    assert forall i | 0 <= i < |c.beats| ::
      c.beats[i].Turn? ==> d.beats[i].Turn? && d.beats[i].of == c.beats[i].of && d.beats[i].fate == c.beats[i].fate;
    assert forall i | 0 <= i < |c.beats| - 1 :: d.beats[i] == c.beats[i];
  }

  lemma FreshByFlush(c: Acct, phase: Phase, expired: bool, now: int)
    requires Fresh(c, phase, now)
    requires phase.Reads? || phase.Committed? ==> EndsWith(c, phase.tx, if phase.Reads? then Aborted else Entered)
    ensures Fresh(OnFlush(c, phase, expired), phase, now)
  {
    hide InTrail, Spent, Unfailing, Whole, WithTear;
    if expired && c.faults == 0 {
      if OnTime(c) {
        SpentByFlush(c, phase);
      }
      UnfailingByFlush(c, phase);
    }
  }

  lemma UnfailingByFlush(c: Acct, phase: Phase)
    requires Unfailing(c.beats)
    ensures Unfailing(OnFlush(c, phase, true).beats)
  {
  }

  lemma FreshByClose(c: Acct, phase: Phase, now: int)
    requires Fresh(c, phase, now) && (phase.Reads? || phase.Settled?)
    ensures Fresh(OnClose(c, phase), Out, now)
  {
    hide InTrail, Passes, Unfailing, Whole;
  }

  // A read dated after the deadline returns the same metrics and leaves the same empty set,
  // whether or not the key has expired in between.
  lemma ExpiryInvisible(c: Acct, now: int, tx: Tx, h: Table)
    requires Fresh(c, Out, now) && OnTime(c) && Backed(h, tx.from, c.txs)
    requires c.deadline < tx.createdAt && c.expiredUntil < tx.createdAt
    ensures var t := tx.createdAt;
      && Answer(tx, h) == 0
      && Read(EMPTY, t, Answer(tx, h)) == Reading(EMPTY, 0, 0)
      && Read(c.window, t, Answer(tx, h)) == Reading(EMPTY, 0, 0)
  {
    hide Backed, SumAmount, InTrail, Spent, Unfailing, Whole;
    var t := tx.createdAt;
    WithinNone(c.txs, t - DAY, t);
    SumAtMostCommitted(h, tx.from, c.txs, t - DAY, t);
    KeptNone(c.window.live, t - DAY);
  }
}
