/** One evaluator at work for one account on an otherwise idle machine whose history table is empty: what each
    step of an evaluation, and an expiry, makes of the account and of the log. */
module Stage {
  import opened Domain
  import opened Verdict
  import opened Rules
  import opened Sums
  import opened History
  import opened Context
  import opened Window
  import opened Account
  import opened Receivers
  import opened Pipeline
  import opened Machine
  import opened Interleaving
  import opened Solo

  const PEER: AccountId := "PEER"

  // Longer than any set lives.
  const PAUSE: nat := DAY + 1

  // Evaluator 0 stands at `pc` and the account is `c`; ids from `n` on are unused.
  ghost predicate Standing(s: State, a: AccountId, pc: Pc, c: Acct, n: nat) {
    && PcOf(s, 0) == pc && s.locks == (if pc.Idle? then map[] else map[a := 0])
    && (!pc.Idle? ==> pc.tx.from == a && pc.tx.to == PEER)
    && AcctOf(s, a) == c && c.window.marker.None? && c.deadline <= s.now + DAY
    && s.pipe.history == map[] && RecvOf(s, PEER).senders <= {a}
    && (forall k | k in s.book :: k.id < n)
  }

  function Approved(s: State, a: AccountId): seq<Tx> { ApprovedOf(Events(s.pipe.wal), a) }

  lemma EmptyTable(a: AccountId, lo: int, hi: int)
    ensures SumAmount(map[], a, lo, hi) == 0 && FetchGroupedStats(map[], a, lo, hi) == []
  {
    assert Selected(map[], a, lo, hi) == map[];
    assert SelectedKind(map[], a, lo, hi, false) == map[] && SelectedKind(map[], a, lo, hi, true) == map[];
  }

  lemma ReadOnEmpty(c: Acct, tx: Tx, now: int)
    requires c.window.marker.None?
    ensures var (d, m) := OnRead(c, tx, map[], now);
      && d.window == Window(None, Kept(c.window.live, tx.createdAt - DAY))
      && m.volume == Total(d.window.live) && m.count == |d.window.live|
      && d.beats == c.beats + [Turn(tx, Aborted, false)] && d.deadline == c.deadline
  {
    hide OnRead, SumAmount, Total, Recovered, Unrecovered;
    ReadShape(c, tx, map[], now);
    EmptyTable(tx.from, tx.createdAt - DAY, tx.createdAt);
    assert Kept([], tx.createdAt - DAY) == [];
  }

  // --- One step ----------------------------------------------------------------------------

  lemma StandsLocked(s: State, a: AccountId, c: Acct, tx: Tx)
    requires Standing(s, a, Idle, c, tx.id) && tx.from == a && tx.to == PEER
    ensures var t := Step(s, TryLock(0, tx));
      Standing(t, a, Locked(tx), c, tx.id + 1) && t.pipe == s.pipe && t.now == s.now
  {
  }

  lemma StandsRead(s: State, a: AccountId, c: Acct, tx: Tx, n: nat)
    requires Standing(s, a, Locked(tx), c, n)
    ensures var (d, m) := OnRead(c, tx, map[], s.now); var t := Step(s, ReadVolume(0));
      Standing(t, a, Metered(tx, m), d, n) && t.pipe == s.pipe && t.now == s.now
  {
    hide OnRead;
    ReadOnEmpty(c, tx, s.now);
  }

  lemma StandsLater(s: State, a: AccountId, pc: Pc, c: Acct, n: nat, d: nat)
    requires Standing(s, a, pc, c, n)
    ensures var t := Step(s, Tick(d));
      && Standing(t, a, pc, c, n) && t.pipe == s.pipe && t.now == s.now + d && c.deadline <= t.now + DAY - d
      && Holder(t, a) == PhaseOf(pc)
  {
  }

  lemma StandsExpired(s: State, a: AccountId, pc: Pc, c: Acct, n: nat)
    requires Standing(s, a, pc, c, n) && c.window.Exists()
    ensures var t := Step(Step(s, Tick(PAUSE)), ExpireVolume(a));
      Standing(t, a, pc, OnFlush(c, PhaseOf(pc), true), n) && t.pipe == s.pipe && t.now == s.now + PAUSE
  {
    hide WithTear, Holder, PhaseOf;
    StandsLater(s, a, pc, c, n, PAUSE);
  }

  lemma AtMostOne(q: set<AccountId>, a: AccountId)
    requires q <= {a}
    ensures |q| <= 1
  {
    assert q == {} || q == {a};
  }

  // With an empty table and at most one sender the volume decides.
  ghost predicate Plain(ctx: AccountContext, m: Metrics) {
    && ctx.volume24h == m.volume && ctx.uniqueCounterparties24h <= 1 && ctx.p2pRatio30d == 0.0
    && (ctx.isDormantAccount <==> m.count == 0)
  }

  lemma StandsReady(s: State, a: AccountId, c: Acct, tx: Tx, m: Metrics, n: nat)
    requires Standing(s, a, Metered(tx, m), c, n)
    ensures var t := Step(Step(s, CountSenders(0)), FetchStats(0));
      && PcOf(t, 0).Ready? && Plain(PcOf(t, 0).ctx, m)
      && Standing(t, a, Ready(tx, m, PcOf(t, 0).ctx), c, n) && t.pipe == s.pipe && t.now == s.now
  {
    hide FetchGroupedStats;
    AtMostOne(RecvOf(s, PEER).senders, a);
    EmptyTable(a, tx.createdAt - THIRTY_DAYS, tx.createdAt);
  }

  lemma PlainDecides(tx: Tx, m: Metrics, ctx: AccountContext)
    requires Plain(ctx, m)
    ensures Decide(tx, ctx) == (if Passes(tx, m) then APPROVED else FLAGGED)
  {
    ConfiguredDecision(CONFIGURED, tx, ctx);
  }

  lemma StandsSaved(s: State, a: AccountId, c: Acct, tx: Tx, m: Metrics, ctx: AccountContext, n: nat)
    requires Standing(s, a, Ready(tx, m, ctx), c, n) && Plain(ctx, m)
    ensures var t := Step(s, Commit(0));
      && Standing(t, a, Saved(tx, m, ctx), OnCommit(c, tx, m, Decide(tx, ctx)), n) && t.now == s.now + 1
      && Approved(t, a) == Approved(s, a) + if Passes(tx, m) then [tx] else []
  {
    hide Decide, Results, OnSave, ApprovedOf, TxsOf, VerdictsOf, VolumePassed, Events, Passes, WithFate, InTrail;
    PlainDecides(tx, m, ctx);
    EventsOfSave(s.pipe, EventFor(tx, ctx, s.now), s.now);
    TxsOfSnoc(Events(s.pipe.wal), EventFor(tx, ctx, s.now), a);
    SaveKeepsHistory(s.pipe, EventFor(tx, ctx, s.now), s.now);
  }

  lemma SaveKeepsHistory(p: Pipe, e: Event, at: int)
    ensures OnSave(p, e, at).history == p.history
  {
  }

  lemma StandsAborted(s: State, a: AccountId, c: Acct, tx: Tx, m: Metrics, n: nat)
    requires Standing(s, a, Metered(tx, m), c, n)
    ensures var t := Step(s, FailBeforeCommit(0));
      Standing(t, a, Idle, OnClose(c, Reads(tx, m)), n) && t.pipe == s.pipe && t.now == s.now
  {
    assert map[a := 0] - {a} == map[];
  }

  lemma StandsAdded(s: State, a: AccountId, c: Acct, tx: Tx, m: Metrics, ctx: AccountContext, n: nat)
    requires Standing(s, a, Saved(tx, m, ctx), c, n)
    ensures var t := Step(s, AddVolume(0));
      Standing(t, a, Cached(tx, m, ctx), OnAdd(c, tx, s.now), n) && t.pipe == s.pipe && t.now == s.now
  {
  }

  lemma StandsFinished(s: State, a: AccountId, c: Acct, tx: Tx, m: Metrics, ctx: AccountContext, n: nat)
    requires Standing(s, a, Cached(tx, m, ctx), c, n)
    ensures var t := Step(s, AddSender(0));
      Standing(t, a, Finished(tx, m, true), c, n) && t.pipe == s.pipe && t.now == s.now
  {
  }

  lemma StandsCached(s: State, a: AccountId, c: Acct, tx: Tx, m: Metrics, ctx: AccountContext, n: nat)
    requires Standing(s, a, Saved(tx, m, ctx), c, n)
    ensures var t := Step(Step(s, AddVolume(0)), AddSender(0));
      Standing(t, a, Finished(tx, m, true), OnAdd(c, tx, s.now), n) && t.pipe == s.pipe && t.now == s.now
  {
    hide Step, Standing, OnAdd;
    StandsAdded(s, a, c, tx, m, ctx, n);
    StandsFinished(Step(s, AddVolume(0)), a, OnAdd(c, tx, s.now), tx, m, ctx, n);
  }

  lemma StandsDropped(s: State, a: AccountId, c: Acct, tx: Tx, m: Metrics, ctx: AccountContext, n: nat)
    requires Standing(s, a, Saved(tx, m, ctx), c, n)
    ensures var t := Step(s, AddVolumeFails(0));
      Standing(t, a, Finished(tx, m, false), OnDrop(c, tx), n) && t.pipe == s.pipe && t.now == s.now
  {
    hide WithFate;
  }

  lemma StandsOutside(s: State, a: AccountId, c: Acct, tx: Tx, m: Metrics, added: bool, n: nat)
    requires Standing(s, a, Finished(tx, m, added), c, n)
    ensures var t := Step(s, Unlock(0));
      Standing(t, a, Idle, OnClose(c, Settled(tx, m, added)), n) && t.pipe == s.pipe && t.now == s.now
  {
    assert map[a := 0] - {a} == map[];
  }
}
