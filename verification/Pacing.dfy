/** How the instants of transactions relate to the clock and to expiries, as conditions on the actions of a
    run, and what those conditions make of the account's record. */
module Pacing {
  import opened Domain
  import opened Sums
  import opened History
  import opened Window
  import opened Account
  import opened Limit
  import opened Sandwich
  import opened Pattern
  import opened Watch
  import opened Serial
  import opened Burst
  import opened Expiry
  import opened Dormancy
  import opened Pipeline
  import opened Machine
  import opened Interleaving
  import opened Effects

  // The action reads the metrics of account `a`.
  predicate ReadsFor(s: State, action: Action, a: AccountId) {
    action.ReadVolume? && At(s, action.e, a) && PcOf(s, action.e).Locked?
  }

  // No transaction of the account is dated ahead of the clock when its metrics are read.
  ghost predicate NotAhead(actions: seq<Action>, a: AccountId) {
    forall n | 0 <= n < |actions| && ReadsFor(Run(actions[..n]), actions[n], a) ::
      PcOf(Run(actions[..n]), actions[n].e).tx.createdAt <= Run(actions[..n]).now
  }

  // The action lets the account's set expire, whose deadline was `deadline`.
  ghost predicate ExpiresAt(s: State, action: Action, a: AccountId, deadline: int) {
    action == ExpireVolume(a) && Expires(s, a) && AcctOf(s, a).deadline == deadline
  }

  // No read of the account is dated at or before the deadline of an expiry that came earlier.
  ghost predicate AfterExpiries(actions: seq<Action>, a: AccountId) {
    forall m, n, d: int | 0 <= m < n < |actions|
      && ExpiresAt(Run(actions[..m]), actions[m], a, d) && ReadsFor(Run(actions[..n]), actions[n], a) ::
      d < PcOf(Run(actions[..n]), actions[n].e).tx.createdAt
  }

  // At each read of the account the transaction's instant lies at most `lag` behind the clock, and its
  // set expires strictly after its deadline.
  ghost predicate LagsAtMost(actions: seq<Action>, a: AccountId, lag: nat) {
    && NotAhead(actions, a)
    && (forall n | 0 <= n < |actions| && ReadsFor(Run(actions[..n]), actions[n], a) ::
          Run(actions[..n]).now <= PcOf(Run(actions[..n]), actions[n].e).tx.createdAt + lag)
    && (forall n, d: int | 0 <= n < |actions| && ExpiresAt(Run(actions[..n]), actions[n], a, d) ::
          d < Run(actions[..n]).now)
  }

  lemma Prefix(actions: seq<Action>, k: nat, n: nat)
    requires k <= n <= |actions|
    ensures actions[..n][..k] == actions[..k]
  {
  }

  lemma PrefixKeeps(actions: seq<Action>, a: AccountId, lag: nat)
    requires actions != []
    ensures NotAhead(actions, a) ==> NotAhead(actions[..|actions| - 1], a)
    ensures AfterExpiries(actions, a) ==> AfterExpiries(actions[..|actions| - 1], a)
    ensures LagsAtMost(actions, a, lag) ==> LagsAtMost(actions[..|actions| - 1], a, lag)
  {
    hide Run, Step, ReadsFor, ExpiresAt, PcOf, AcctOf;
    var n := |actions| - 1;
    forall k | 0 <= k < n ensures actions[..n][..k] == actions[..k] && actions[..n][k] == actions[k] {
      Prefix(actions, k, n);
    }
  }

  // --- The clock ------------------------------------------------------------------

  ghost predicate Paced(c: Acct, now: int) { !c.ahead && forall t | t in c.seen :: t <= now }

  // The account's record, if the action neither reads nor adds for it.
  lemma PacedByOther(s: State, action: Action, a: AccountId, now: int)
    requires Paced(AcctOf(s, a), now) && !ReadsFor(s, action, a) && !action.AddVolume?
    ensures Paced(AcctAfter(s, action, a), now)
  {
    hide InTrail, Passes, Holder, Decide;
  }

  lemma PacedByRead(c: Acct, tx: Tx, h: Table, now: int)
    requires Paced(c, now) && tx.createdAt <= now
    ensures Paced(OnRead(c, tx, h, now).0, now)
  {
    hide ShowsLater, Read, Recovered, Unrecovered, Answer, TrimmedBy;
  }

  // An evaluator past its read works on an instant seen under the lock.
  lemma InstantSeen(s: State, e: nat, a: AccountId)
    requires Inv(s) && At(s, e, a) && !PhaseOf(PcOf(s, e)).Out?
    ensures PcOf(s, e).tx.createdAt in AcctOf(s, a).seen
  {
    hide Ledger, Decision, Bounded, Close, Watched, Serialized, Exact, Fresh, CountMeans, Informed, Stored;
    HeldBy(s, e);
    assert Good(AcctOf(s, a), Holder(s, a), a, s.now);
  }

  lemma PacedByStep(s: State, action: Action, a: AccountId)
    requires Inv(s) && Paced(AcctOf(s, a), s.now)
    requires ReadsFor(s, action, a) ==> PcOf(s, action.e).tx.createdAt <= s.now
    ensures Paced(AcctAfter(s, action, a), s.now)
  {
    hide Inv, OnRead, Holder;
    if ReadsFor(s, action, a) {
      PacedByRead(AcctOf(s, a), PcOf(s, action.e).tx, s.pipe.history, s.now);
    } else if action.AddVolume? {
      if At(s, action.e, a) && PcOf(s, action.e).Saved? {
        InstantSeen(s, action.e, a);
      }
    } else {
      PacedByOther(s, action, a, s.now);
    }
  }

  lemma {:induction false} PacedInRun(actions: seq<Action>, a: AccountId)
    requires NotAhead(actions, a)
    ensures Paced(AcctOf(Run(actions), a), Run(actions).now)
  {
    hide Step, Inv;
    if actions != [] {
      var n := |actions| - 1;
      PrefixKeeps(actions, a, 0);
      PacedInRun(actions[..n], a);
      EveryRun(actions[..n]);
      PacedByStep(Run(actions[..n]), actions[n], a);
      AcctByStep(Run(actions[..n]), actions[n], a);
      ClockByStep(Run(actions[..n]), actions[n]);
      hide AcctAfter;
    }
  }

  // --- Expiries -----------------------------------------------------------------------

  lemma ExpiredByOther(s: State, action: Action, a: AccountId)
    requires !action.ExpireVolume?
    ensures AcctAfter(s, action, a).expiredUntil == AcctOf(s, a).expiredUntil
  {
    hide WithFate, WithTear, CallOf, OnRead, InTrail, Passes, Holder, Decide;
    if ReadsFor(s, action, a) {
      ReadKeeps(AcctOf(s, a), PcOf(s, action.e).tx, s.pipe.history, s.now);
    }
  }

  lemma ExpiredByStep(s: State, action: Action, a: AccountId)
    ensures var c, d := AcctOf(s, a), AcctOf(Step(s, action), a);
      d.expiredUntil == c.expiredUntil || ExpiresAt(s, action, a, d.expiredUntil)
  {
    hide Step, Holder;
    AcctByStep(s, action, a);
    if !action.ExpireVolume? {
      ExpiredByOther(s, action, a);
      hide AcctAfter;
    }
  }

  lemma LateByStep(s: State, action: Action, a: AccountId)
    ensures var c, d := AcctOf(s, a), AcctOf(Step(s, action), a);
      d.late ==> c.late || (ReadsFor(s, action, a) && PcOf(s, action.e).tx.createdAt <= c.expiredUntil)
  {
    hide WithFate, WithTear, CallOf, ShowsLater, Step, Read, Recovered, Unrecovered, Answer, TrimmedBy, InTrail,
      Passes, Holder, Decide;
    AcctByStep(s, action, a);
  }

  lemma {:induction false} ExpiredBefore(actions: seq<Action>, a: AccountId, n: nat, t: nat)
    requires n <= |actions|
    requires forall m, d: int | 0 <= m < n && ExpiresAt(Run(actions[..m]), actions[m], a, d) :: d < t
    ensures AcctOf(Run(actions[..n]), a).expiredUntil < t
  {
    hide Step, ExpiresAt;
    if n > 0 {
      ExpiredBefore(actions, a, n - 1, t);
      assert actions[..n][..n - 1] == actions[..n - 1];
      ExpiredByStep(Run(actions[..n - 1]), actions[n - 1], a);
    }
  }

  lemma {:induction false} NeverLate(actions: seq<Action>, a: AccountId)
    requires AfterExpiries(actions, a)
    ensures !AcctOf(Run(actions), a).late
  {
    hide Step, ExpiresAt;
    if actions != [] {
      var n := |actions| - 1;
      PrefixKeeps(actions, a, 0);
      NeverLate(actions[..n], a);
      LateByStep(Run(actions[..n]), actions[n], a);
      if ReadsFor(Run(actions[..n]), actions[n], a) {
        ExpiredBefore(actions, a, n, PcOf(Run(actions[..n]), actions[n].e).tx.createdAt);
      }
    }
  }

  lemma {:induction false} LockedInRun(actions: seq<Action>, e: nat)
    requires PcOf(Run(actions), e).Locked?
    ensures TryLock(e, PcOf(Run(actions), e).tx) in actions
  {
    hide Step, OnRead;
    if actions != [] {
      var n := |actions| - 1;
      HoldsByStep(Run(actions[..n]), actions[n], e);
      if actions[n] != TryLock(e, PcOf(Run(actions), e).tx) {
        LockedInRun(actions[..n], e);
      }
    }
  }

  lemma {:induction false} ClockInRun(actions: seq<Action>, n: nat)
    requires n <= |actions|
    ensures Run(actions[..n]).now <= Run(actions).now
  {
    hide Step;
    if n < |actions| {
      var k := |actions| - 1;
      ClockInRun(actions[..k], n);
      assert actions[..k][..n] == actions[..n];
      ClockByStep(Run(actions[..k]), actions[k]);
    } else {
      assert actions[..n] == actions;
    }
  }

  lemma DeadlineInRun(actions: seq<Action>, a: AccountId)
    ensures AcctOf(Run(actions), a).deadline <= Run(actions).now + DAY
  {
    hide Run, Safe, Close, Watched, Serialized, Exact, Aged, CountMeans, Stored, Informed, Mutex;
    EveryRun(actions);
    assert Good(AcctOf(Run(actions), a), Holder(Run(actions), a), a, Run(actions).now);
  }

  // A run whose transactions are all dated beyond every deadline reads nothing late.
  lemma FarAheadIsAfterExpiries(actions: seq<Action>, a: AccountId)
    requires forall e, tx | TryLock(e, tx) in actions && tx.from == a :: Run(actions).now + DAY < tx.createdAt
    ensures AfterExpiries(actions, a)
  {
    hide Run;
    forall m, n, d: int | 0 <= m < n < |actions|
      && ExpiresAt(Run(actions[..m]), actions[m], a, d) && ReadsFor(Run(actions[..n]), actions[n], a)
      ensures d < PcOf(Run(actions[..n]), actions[n].e).tx.createdAt
    {
      DeadlineInRun(actions[..m], a);
      ClockInRun(actions, m);
      LockedInRun(actions[..n], actions[n].e);
    }
  }

  // --- A bounded lag --------------------------------------------------------------------

  ghost predicate Lagged(c: Acct, now: int, lag: nat) {
    && Paced(c, now) && c.expiredUntil < now
    && (forall b | b in c.beats && b.Turn? :: b.of.createdAt <= now)
    && Spaced(Marks(c.beats), lag)
  }

  ghost predicate LaggedIn(s: State, a: AccountId, lag: nat) { Lagged(AcctOf(s, a), s.now, lag) }

  // A further turn, dated at most `lag` before the clock, which every expired deadline has passed.
  lemma LaggedSnoc(c: Acct, tx: Tx, now: int, lag: nat)
    requires Lagged(c, now, lag) && Spent(c, Out) && tx.createdAt <= now <= tx.createdAt + lag
    ensures Spaced(Marks(c.beats + [Turn(tx, Aborted, false)]), lag)
  {
    hide Spaced, Paced;
    var p, t := Marks(c.beats), tx.createdAt;
    assert forall i | 0 <= i < |p| :: c.beats[i] in c.beats && p[i] == Mark(c.beats[i]);
    assert Marks(c.beats + [Turn(tx, Aborted, false)]) == p + [Turn(t, Aborted, false)];
    forall i, m | 0 <= i < m < |p| && Commits(p[i]) && Loses(p[m]) ensures p[i].of + DAY < t + lag {
      assert Commits(c.beats[i]) && Loses(c.beats[m]);
    }
    SpacedSnoc(p, t, lag);
  }

  // Whatever becomes of the latest beat, and a lapse after it, the others decide.
  lemma SpacedByEnd(q: seq<Beat<Tx>>, r: seq<Beat<Tx>>, lag: nat)
    requires Spaced(Marks(q), lag) && |q| <= |r| <= |q| + 1
    requires |r| > |q| ==> r[..|q|] == q && r[|q|].Lapse?
    requires |r| == |q| > 0 ==> r[..|q| - 1] == q[..|q| - 1]
    requires |r| == |q| > 0 && r[|q| - 1].Turn? ==> q[|q| - 1].Turn? && r[|q| - 1].of == q[|q| - 1].of
    ensures Spaced(Marks(r), lag)
  {
    var p, s := Marks(q), Marks(r);
    assert forall i | 0 <= i < |r| - 1 :: r[i] == r[..|r| - 1][i];
    assert forall i | 0 <= i < |q| - 1 :: q[i] == q[..|q| - 1][i];
    assert forall i | 0 <= i < |r| - 1 :: s[i] == p[i];
    assert forall i | 0 <= i < |r| && s[i].Turn? :: i < |q| && p[i].Turn? && p[i].of == s[i].of;
  }

  lemma ReadKeeps(c: Acct, tx: Tx, h: Table, now: int)
    ensures var (d, m) := OnRead(c, tx, h, now);
      && d.seen == c.seen + [tx.createdAt] && d.expiredUntil == c.expiredUntil
      && d.beats == c.beats + [Turn(tx, Aborted, false)]
      && d.faults == c.faults && d.flushes == c.flushes && (d.late ==> c.late || tx.createdAt <= c.expiredUntil)
  {
    hide Read, Recovered, Unrecovered, Answer, TrimmedBy, ShowsLater;
  }

  lemma LaggedByRead(c: Acct, tx: Tx, h: Table, now: int, lag: nat)
    requires Lagged(c, now, lag) && Fresh(c, Out, now) && c.faults == 0
    requires tx.createdAt <= now <= tx.createdAt + lag
    ensures Lagged(OnRead(c, tx, h, now).0, now, lag)
  {
    hide OnRead, Spaced, Marks, Aged, Spent, Unfailing, Whole, InTrail;
    PacedByRead(c, tx, h, now);
    LaggedSnoc(c, tx, now, lag);
    ReadKeeps(c, tx, h, now);
  }

  lemma FateEnds(q: seq<Beat<Tx>>, fate: Fate)
    requires q != []
    ensures var r := WithFate(q, fate);
      && |r| == |q| && r[..|q| - 1] == q[..|q| - 1]
      && (q[|q| - 1].Lapse? ==> r[|q| - 1].Lapse?)
      && (q[|q| - 1].Turn? ==> r[|q| - 1].Turn? && r[|q| - 1].of == q[|q| - 1].of)
    ensures var r := WithTear(q);
      && |r| == |q| && r[..|q| - 1] == q[..|q| - 1]
      && (q[|q| - 1].Lapse? ==> r[|q| - 1].Lapse?)
      && (q[|q| - 1].Turn? ==> r[|q| - 1].Turn? && r[|q| - 1].of == q[|q| - 1].of)
  {
  }

  // The outline with another last beat, or one lapse more.
  lemma LaggedByEnd(c: Acct, d: Acct, now: int, lag: nat)
    requires Lagged(c, now, lag) && Paced(d, now) && d.expiredUntil < now
    requires d.beats == c.beats || d.beats == WithFate(c.beats, Entered) || d.beats == WithTear(c.beats)
             || d.beats == c.beats + [Lapse]
    ensures Lagged(d, now, lag)
  {
    hide Spaced, Marks, Paced, WithFate, WithTear;
    var q, r := c.beats, d.beats;
    if q != [] {
      FateEnds(q, Entered);
    } else {
      assert WithFate(q, Entered) == [] == WithTear(q) by { NothingToEnd(); }
    }
    assert (q + [Lapse])[..|q|] == q;
    SpacedByEnd(q, r, lag);
    forall b | b in r && b.Turn? ensures b.of.createdAt <= now {
      var i :| 0 <= i < |r| && r[i] == b;
      if i < |r| - 1 {
        assert r[i] == r[..|r| - 1][i] && q[i] in q;
      } else if i < |q| {
        assert q[i] in q;
      }
    }
  }

  lemma NothingToEnd()
    ensures WithFate([], Entered) == [] == WithTear([])
  {
  }

  lemma BeatsByCommit(c: Acct, tx: Tx, m: Metrics, status: TransactionStatus)
    ensures var d := OnCommit(c, tx, m, status);
      d.beats == WithFate(c.beats, Entered) && d.expiredUntil == c.expiredUntil
  {
    hide InTrail, Passes, WithFate;
  }

  lemma BeatsByWork(c: Acct, tx: Tx, phase: Phase, now: int)
    ensures OnAdd(c, tx, now).beats == c.beats && OnAdd(c, tx, now).expiredUntil == c.expiredUntil
    ensures phase.Reads? || phase.Settled? ==>
              OnClose(c, phase).beats == c.beats && OnClose(c, phase).expiredUntil == c.expiredUntil
  {
    hide CallOf;
  }

  lemma BeatsByFlush(c: Acct, phase: Phase, expired: bool)
    ensures var d := OnFlush(c, phase, expired);
      && (d.beats == WithTear(c.beats) || d.beats == c.beats + [Lapse])
      && (d.expiredUntil == c.expiredUntil || (expired && d.expiredUntil == c.deadline))
  {
    hide WithTear;
  }

  // What an action other than a read makes of the outline, if nothing fails.
  lemma BeatsByOther(s: State, action: Action, a: AccountId)
    requires !ReadsFor(s, action, a) && !action.AddVolumeFails? && !action.Crash?
    ensures var q, r := AcctOf(s, a).beats, AcctAfter(s, action, a).beats;
      r == q || r == WithFate(q, Entered) || r == WithTear(q) || r == q + [Lapse]
    ensures var c, d := AcctOf(s, a), AcctAfter(s, action, a);
      d.expiredUntil == c.expiredUntil
      || (action == ExpireVolume(a) && Expires(s, a) && d.expiredUntil == c.deadline)
  {
    hide WithFate, WithTear, Holder, Decide, OnRead, OnCommit, OnAdd, OnClose, OnFlush;
    var c := AcctOf(s, a);
    match action
    case Commit(e) =>
      if PcOf(s, e).Ready? {
        BeatsByCommit(c, PcOf(s, e).tx, PcOf(s, e).m, Decide(PcOf(s, e).tx, PcOf(s, e).ctx));
      }
    case AddVolume(e) =>
      if At(s, e, a) {
        BeatsByWork(c, PcOf(s, e).tx, Out, s.now);
      }
    case FailBeforeCommit(e) =>
      if At(s, e, a) {
        BeatsByWork(c, PcOf(s, e).tx, PhaseOf(PcOf(s, e)), s.now);
      }
    case Unlock(e) =>
      if At(s, e, a) {
        BeatsByWork(c, PcOf(s, e).tx, PhaseOf(PcOf(s, e)), s.now);
      }
    case LoseVolume(_) => BeatsByFlush(c, Holder(s, a), false);
    case ExpireVolume(_) => BeatsByFlush(c, Holder(s, a), true);
    case _ =>
  }

  lemma FreshAtRead(s: State, e: nat, a: AccountId)
    requires Inv(s) && At(s, e, a) && PcOf(s, e).Locked?
    ensures Fresh(AcctOf(s, a), Out, s.now)
  {
    hide Safe, Close, Watched, Serialized, Exact, Fresh, CountMeans, Informed, Stored;
    HeldBy(s, e);
    assert Good(AcctOf(s, a), Holder(s, a), a, s.now);
  }

  lemma LaggedAcctByStep(s: State, action: Action, a: AccountId, lag: nat)
    requires Inv(s) && LaggedIn(s, a, lag) && AcctOf(s, a).faults == 0
    requires !action.AddVolumeFails? && !action.Crash?
    requires ReadsFor(s, action, a) ==>
               PcOf(s, action.e).tx.createdAt <= s.now <= PcOf(s, action.e).tx.createdAt + lag
    requires action == ExpireVolume(a) && Expires(s, a) ==> AcctOf(s, a).deadline < s.now
    ensures Lagged(AcctAfter(s, action, a), s.now, lag)
  {
    hide Inv, AcctAfter, Fresh, Lagged, Paced;
    var c := AcctOf(s, a);
    if ReadsFor(s, action, a) {
      var tx := PcOf(s, action.e).tx;
      FreshAtRead(s, action.e, a);
      LaggedByRead(c, tx, s.pipe.history, s.now, lag);
      ReadIsAfter(s, action, a);
    } else {
      LaggedFacts(c, s.now, lag);
      PacedByStep(s, action, a);
      BeatsByOther(s, action, a);
      LaggedByEnd(c, AcctAfter(s, action, a), s.now, lag);
    }
  }

  lemma ReadIsAfter(s: State, action: Action, a: AccountId)
    requires ReadsFor(s, action, a)
    ensures AcctAfter(s, action, a) == OnRead(AcctOf(s, a), PcOf(s, action.e).tx, s.pipe.history, s.now).0
  {
    hide OnRead;
  }

  lemma LaggedFacts(c: Acct, now: int, lag: nat)
    requires Lagged(c, now, lag)
    ensures Paced(c, now) && c.expiredUntil < now
  {
  }

  lemma LaggedByStep(s: State, action: Action, a: AccountId, lag: nat)
    requires Inv(s) && LaggedIn(s, a, lag) && AcctOf(s, a).faults == 0
    requires !action.AddVolumeFails? && !action.Crash?
    requires ReadsFor(s, action, a) ==>
               PcOf(s, action.e).tx.createdAt <= s.now <= PcOf(s, action.e).tx.createdAt + lag
    requires action == ExpireVolume(a) && Expires(s, a) ==> AcctOf(s, a).deadline < s.now
    ensures LaggedIn(Step(s, action), a, lag)
  {
    hide Inv, Step, AcctAfter, Spaced, Marks;
    LaggedAcctByStep(s, action, a, lag);
    AcctByStep(s, action, a);
    ClockByStep(s, action);
  }

  lemma LaggedNeverEscapes(c: Acct, phase: Phase, now: int, lag: nat, span: nat)
    requires Lagged(c, now, lag) && Fresh(c, phase, now) && c.faults == 0 && span + lag <= DAY
    ensures NoEscapeWithin(Marks(c.beats), span)
  {
    hide Spaced, NoEscapeWithin, Aged, Spent, Whole, InTrail;
    MarksUnfailing(c.beats);
    SpacedNeverEscapes(Marks(c.beats), lag, span);
  }

  lemma MarksUnfailing(q: seq<Beat<Tx>>)
    ensures Unfailing(q) ==> Unfailing(Marks(q))
    ensures Whole(q) ==> Whole(Marks(q))
  {
    assert forall i | 0 <= i < |q| :: q[i] in q && Marks(q)[i] == Mark(q[i]);
  }

  // --- Runs -----------------------------------------------------------------------------

  // A run in which every cache write succeeds and no sorted set is lost to anything but expiry.
  predicate Reliable(actions: seq<Action>) {
    forall x | x in actions :: !x.AddVolumeFails? && !x.Crash? && !x.LoseVolume?
  }

  predicate NoExpiry(actions: seq<Action>) { forall x | x in actions :: !x.ExpireVolume? }

  lemma FaultsByStep(s: State, action: Action, a: AccountId)
    requires !action.AddVolumeFails? && !action.Crash? && !action.LoseVolume?
    ensures AcctOf(Step(s, action), a).faults == AcctOf(s, a).faults
    ensures !action.ExpireVolume? ==> AcctOf(Step(s, action), a).flushes == AcctOf(s, a).flushes
  {
    hide Step, OnRead, InTrail, Passes, Holder, Decide;
    AcctByStep(s, action, a);
    if ReadsFor(s, action, a) {
      ReadKeeps(AcctOf(s, a), PcOf(s, action.e).tx, s.pipe.history, s.now);
    }
  }

  lemma {:induction false} ReliableRun(actions: seq<Action>, a: AccountId)
    requires Reliable(actions)
    ensures AcctOf(Run(actions), a).faults == 0
    ensures NoExpiry(actions) ==> AcctOf(Run(actions), a).flushes == 0
  {
    hide Step;
    if actions != [] {
      ReliableRun(actions[..|actions| - 1], a);
      FaultsByStep(Run(actions[..|actions| - 1]), actions[|actions| - 1], a);
    }
  }

  // Nothing failed, nothing dated ahead of the clock, nothing dated at or before an earlier expiry.
  lemma TimelyRun(actions: seq<Action>, a: AccountId)
    requires Reliable(actions) && NotAhead(actions, a)
    ensures OnTime(AcctOf(Run(actions), a))
    ensures AfterExpiries(actions, a) ==> Timely(AcctOf(Run(actions), a))
  {
    hide Run;
    ReliableRun(actions, a);
    PacedInRun(actions, a);
    if AfterExpiries(actions, a) {
      NeverLate(actions, a);
    }
  }

  lemma LaggedBoot(a: AccountId, lag: nat)
    ensures LaggedIn(BOOT, a, lag)
  {
  }

  lemma {:induction false} LaggedInRun(actions: seq<Action>, a: AccountId, lag: nat)
    requires Reliable(actions) && LagsAtMost(actions, a, lag)
    ensures LaggedIn(Run(actions), a, lag)
  {
    hide Step, Inv, LaggedIn;
    if actions == [] {
      LaggedBoot(a, lag);
    } else {
      var n := |actions| - 1;
      PrefixKeeps(actions, a, lag);
      LaggedInRun(actions[..n], a, lag);
      EveryRun(actions[..n]);
      ReliableRun(actions[..n], a);
      assert ExpiresAt(Run(actions[..n]), actions[n], a, AcctOf(Run(actions[..n]), a).deadline)
             <==> actions[n] == ExpireVolume(a) && Expires(Run(actions[..n]), a);
      LaggedByStep(Run(actions[..n]), actions[n], a, lag);
    }
  }
}
