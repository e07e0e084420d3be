/** Daily-limit safety of one account: the inductive invariant and why each step keeps it. */
module Limit {
  import opened Domain
  import opened Sums
  import opened History
  import opened Window
  import opened Account

  function Pending(phase: Phase): seq<Tx> { if phase.Committed? then [phase.tx] else [] }

  // Every committed transaction of a trailing window is in exactly one place, and the marker is
  // worth at least what it stands for.
  ghost predicate Ledger(c: Acct, phase: Phase, a: AccountId) {
    && (forall u | u in c.window.live || u in c.covered || u in c.lost :: u in c.txs)
    && (forall u | u in c.approved || u in c.unseen :: u in c.txs)
    && (phase.Reads? ==> forall u | u in phase.m.missed :: u in c.txs)
    && (forall u | u in c.txs :: u.from == a)
    && (phase.Reads? || phase.Committed? ==> phase.tx.from == a)
    && (phase.Committed? || phase.Settled? ==> phase.tx in c.txs)
    && (forall s: int | InTrail(c.seen, s) ::
          From(c.txs, s) == From(c.window.live, s) + From(c.covered, s) + From(c.lost, s) + From(Pending(phase), s))
    && (forall s: int :: From(c.covered, s) <= c.window.MarkerFrom(s))
  }

  ghost predicate Current(c: Acct, phase: Phase) {
    !phase.Out? ==> |c.seen| > 0 && c.seen[|c.seen| - 1] == phase.tx.createdAt
  }

  // The volume in hand covers everything committed, except what was invisible at the read.
  ghost predicate Decision(c: Acct, phase: Phase) {
    phase.Reads? ==> forall s: int | InTrail(c.seen, s) ::
      From(c.txs, s) <= phase.m.volume + From(phase.m.missed, s)
  }

  ghost predicate Bounded(c: Acct) {
    && (forall s: int :: From(c.approved, s) <= From(c.txs, s))
    && (forall s: int | InTrail(c.seen, s) :: From(c.approved, s) <= LIMIT + From(c.unseen, s))
    && (!c.blind ==> forall s: int | InTrail(c.seen, s) :: From(c.unseen, s) == 0)
  }

  ghost predicate Safe(c: Acct, phase: Phase, a: AccountId) {
    Ledger(c, phase, a) && Current(c, phase) && Decision(c, phase) && Bounded(c)
  }

  lemma TrailShrinks(seen: seq<nat>, t: nat, s: int)
    ensures InTrail(seen + [t], s) <==> InTrail(seen, s) && t <= s + DAY
  {
    assert forall i | 0 <= i < |seen| :: (seen + [t])[i] == seen[i];
    assert (seen + [t])[|seen|] == t;
  }

  // --- Reading the metrics ----------------------------------------------------

  lemma RecoveredWorth(c: Acct, phase: Phase, a: AccountId, h: Table, t: nat, s: int)
    requires Ledger(c, phase, a) && Backed(h, a, c.txs)
    ensures From(Recovered(c.lost, h, t), s) <=
            if s <= t then SumAmount(h, a, t - DAY, t) else 0
  {
    var r := Recovered(c.lost, h, t);
    RecoveredMembers(c.lost, h, t);
    if s <= t {
      ListAtMostTable(r, Selected(h, a, t - DAY, t), t - DAY, t);
      FromEvery(r, t - DAY);
      WithinEvery(r, t - DAY, t);
      FromBounds(r, s, s);
    } else {
      FromNone(r, s);
    }
  }

  lemma MarkerAfterRead(c: Acct, phase: Phase, a: AccountId, tx: Tx, h: Table, now: int, s: int)
    requires Ledger(c, phase, a) && tx.from == a && Backed(h, a, c.txs)
    ensures var (d, m) := OnRead(c, tx, h, now); From(d.covered, s) <= d.window.MarkerFrom(s)
  {
    hide OnRead, Recovered, Unrecovered, SumAmount, Kept, InTrail;
    ReadShape(c, tx, h, now);
    assert From([], s) == 0;
    if c.window.Exists() {
      assert From(c.covered, s) <= c.window.MarkerFrom(s);
    } else {
      RecoveredWorth(c, phase, a, h, tx.createdAt, s);
    }
  }

  lemma LedgerAfterRead(c: Acct, a: AccountId, tx: Tx, h: Table, now: int, s: int)
    requires Ledger(c, Out, a) && tx.from == a && Backed(h, a, c.txs)
    requires InTrail(c.seen, s) && tx.createdAt <= s + DAY
    ensures var (d, m) := OnRead(c, tx, h, now);
      From(d.txs, s) == From(d.window.live, s) + From(d.covered, s) + From(d.lost, s)
  {
    hide OnRead, TrimmedBy, Kept, Recovered, Unrecovered, Answer;
    ReadShape(c, tx, h, now);
    assert From(c.covered, s) <= c.window.MarkerFrom(s) && From([], s) == 0;
    if c.window.Exists() {
      KeptKeepsWindow(c.window.live, tx.createdAt - DAY, s);
    } else {
      RecoverySplits(c.lost, h, tx.createdAt, s);
    }
  }

  lemma MembersAfterRead(c: Acct, a: AccountId, tx: Tx, h: Table, now: int)
    requires Ledger(c, Out, a)
    ensures var (d, m) := OnRead(c, tx, h, now);
      forall u | u in d.window.live || u in d.covered || u in d.lost || u in m.missed :: u in d.txs
  {
    KeptMembers(c.window.live, tx.createdAt - DAY);
    RecoveredMembers(c.lost, h, tx.createdAt);
  }

  lemma VolumeCovers(w: Window, covered: seq<Tx>, s: int)
    requires From(covered, s) <= w.MarkerFrom(s)
    ensures From(w.live, s) + From(covered, s) <= w.Volume()
  {
    FromBounds(w.live, s, s);
  }

  lemma SafeByRead(c: Acct, a: AccountId, tx: Tx, h: Table, now: int)
    requires Safe(c, Out, a) && tx.from == a && Backed(h, a, c.txs)
    ensures var (d, m) := OnRead(c, tx, h, now); Safe(d, Reads(tx, m), a)
  {
    var t := tx.createdAt;
    var (d, m) := OnRead(c, tx, h, now);
    var phase := Reads(tx, m);
    MembersAfterRead(c, a, tx, h, now);
    forall s: int ensures InTrail(d.seen, s) <==> InTrail(c.seen, s) && t <= s + DAY {
      TrailShrinks(c.seen, t, s);
    }
    forall s: int ensures From(d.covered, s) <= d.window.MarkerFrom(s) {
      MarkerAfterRead(c, Out, a, tx, h, now, s);
    }
    ReadBounds(c.window, t, SumAmount(h, a, t - DAY, t));
    forall s: int | InTrail(d.seen, s)
      ensures From(d.txs, s) == From(d.window.live, s) + From(d.covered, s) + From(d.lost, s) + From(Pending(phase), s)
      ensures From(d.txs, s) <= m.volume + From(m.missed, s)
    {
      LedgerAfterRead(c, a, tx, h, now, s);
      VolumeCovers(d.window, d.covered, s);
    }
  }

  // --- Committing ---------------------------------------------------------------

  lemma InvisibleIsOld(seen: seq<nat>, missed: seq<Tx>, s: int)
    requires forall u | u in missed :: !InTrail(seen, u.createdAt)
    requires InTrail(seen, s)
    ensures From(missed, s) == 0
  {
    forall u | u in missed ensures u.createdAt < s {
      assert s <= u.createdAt ==> InTrail(seen, u.createdAt);
    }
    FromNone(missed, s);
  }

  lemma BoundedByCommit(c: Acct, a: AccountId, tx: Tx, m: Metrics, status: TransactionStatus, s: int)
    requires Safe(c, Reads(tx, m), a) && (status == APPROVED ==> Passes(tx, m))
    ensures var d := OnCommit(c, tx, m, status);
      && From(d.approved, s) <= From(d.txs, s)
      && (InTrail(d.seen, s) ==> From(d.approved, s) <= LIMIT + From(d.unseen, s))
      && (InTrail(d.seen, s) && !d.blind ==> From(d.unseen, s) == 0)
  {
    var d := OnCommit(c, tx, m, status);
    FromSnoc(c.txs, tx, s);
    FromSnoc(c.approved, tx, s);
    if InTrail(c.seen, s) && status == APPROVED && !d.blind {
      InvisibleIsOld(c.seen, m.missed, s);
    }
  }

  lemma LedgerByCommit(c: Acct, a: AccountId, tx: Tx, m: Metrics, status: TransactionStatus)
    requires Ledger(c, Reads(tx, m), a)
    ensures Ledger(OnCommit(c, tx, m, status), Committed(tx, m), a)
  {
    hide InTrail, Window.MarkerFrom;
    forall s: int ensures From(c.txs + [tx], s) == From(c.txs, s) + From([tx], s) && From([], s) == 0 {
      FromConcat(c.txs, [tx], s);
    }
  }

  lemma BoundsByCommit(c: Acct, a: AccountId, tx: Tx, m: Metrics, status: TransactionStatus)
    requires Safe(c, Reads(tx, m), a) && (status == APPROVED ==> Passes(tx, m))
    ensures Bounded(OnCommit(c, tx, m, status))
  {
    hide Safe, InTrail, From, Passes, OnCommit;
    var d := OnCommit(c, tx, m, status);
    forall s: int
      ensures From(d.approved, s) <= From(d.txs, s)
      ensures InTrail(d.seen, s) ==> From(d.approved, s) <= LIMIT + From(d.unseen, s)
      ensures InTrail(d.seen, s) && !d.blind ==> From(d.unseen, s) == 0
    {
      BoundedByCommit(c, a, tx, m, status, s);
    }
  }

  lemma SafeByCommit(c: Acct, a: AccountId, tx: Tx, m: Metrics, status: TransactionStatus)
    requires Safe(c, Reads(tx, m), a) && (status == APPROVED ==> Passes(tx, m))
    ensures Safe(OnCommit(c, tx, m, status), Committed(tx, m), a)
  {
    hide Ledger, Bounded;
    LedgerByCommit(c, a, tx, m, status);
    BoundsByCommit(c, a, tx, m, status);
  }

  // --- The cache write, its failure, key loss and the end -------------------------

  lemma SafeByAdd(c: Acct, a: AccountId, tx: Tx, m: Metrics, now: int)
    requires Safe(c, Committed(tx, m), a)
    ensures Safe(OnAdd(c, tx, now), Settled(tx, m, true), a)
  {
    forall s: int ensures From(c.window.live + [tx], s) == From(c.window.live, s) + From([tx], s) {
      FromConcat(c.window.live, [tx], s);
    }
  }

  lemma SafeByDrop(c: Acct, a: AccountId, tx: Tx, m: Metrics)
    requires Safe(c, Committed(tx, m), a)
    ensures Safe(OnDrop(c, tx), Settled(tx, m, false), a)
  {
    forall s: int ensures From(c.lost + [tx], s) == From(c.lost, s) + From([tx], s) {
      FromConcat(c.lost, [tx], s);
    }
  }

  lemma LedgerByFlush(c: Acct, phase: Phase, a: AccountId, expired: bool)
    requires Ledger(c, phase, a)
    ensures Ledger(OnFlush(c, phase, expired), phase, a)
  {
    forall s: int
      ensures From(c.lost + (c.window.live + c.covered), s) ==
              From(c.lost, s) + From(c.window.live, s) + From(c.covered, s)
    {
      FromConcat(c.window.live, c.covered, s);
      FromConcat(c.lost, c.window.live + c.covered, s);
    }
  }

  lemma SafeByFlush(c: Acct, phase: Phase, a: AccountId, expired: bool)
    requires Safe(c, phase, a)
    ensures Safe(OnFlush(c, phase, expired), phase, a)
  {
    hide Ledger, InTrail, From;
    LedgerByFlush(c, phase, a, expired);
  }

  lemma SafeByClose(c: Acct, phase: Phase, a: AccountId)
    requires Safe(c, phase, a) && (phase.Reads? || phase.Settled?)
    ensures Safe(OnClose(c, phase), Out, a)
  {
    assert forall s: int :: From(Pending(phase), s) == From(Pending(Out), s);
  }

  // --- What the invariant says ------------------------------------------------------

  // The approved total of the 24 hours that end at the latest instant seen exceeds the limit by at
  // most what was committed but invisible when the latest approval was decided.
  lemma TrailingLimit(c: Acct, phase: Phase, a: AccountId, latest: nat)
    requires Safe(c, phase, a)
    requires forall t | t in c.seen :: t <= latest
    ensures Within(c.approved, latest - DAY, latest) <= LIMIT + From(c.unseen, latest - DAY)
    ensures !c.blind ==> Within(c.approved, latest - DAY, latest) <= LIMIT
  {
    assert InTrail(c.seen, latest - DAY) by {
      assert forall i | 0 <= i < |c.seen| :: c.seen[i] in c.seen;
    }
    FromBounds(c.approved, latest - DAY, latest);
  }
}
