/** Expiry refines a set that never expires: leaving an account's expiries out of a run changes nothing but
    old entries nobody will count. */
module Untimed {
  import opened Domain
  import opened Sums
  import opened History
  import opened Window
  import opened Account
  import opened Limit
  import opened Sandwich
  import opened Pattern
  import opened Watch
  import opened Serial
  import opened Burst
  import opened Expiry
  import opened Dormancy
  import opened Context
  import opened Receivers
  import opened Pipeline
  import opened Machine
  import opened Interleaving
  import opened Effects
  import opened Pacing

  function WithoutExpiry(actions: seq<Action>, a: AccountId): seq<Action> {
    if actions == [] then []
    else
      var last := actions[|actions| - 1];
      WithoutExpiry(actions[..|actions| - 1], a) + if last == ExpireVolume(a) then [] else [last]
  }

  // --- One account with and without its expiries -------------------------------------

  // The set `w` that never expired holds what `v` holds, after entries and at most a marker that are all at
  // least 24 hours older than an expired deadline.
  ghost predicate Outlives(v: Window, w: Window, expiredUntil: int) {
    && |v.live| <= |w.live| && w.live[|w.live| - |v.live|..] == v.live
    && (forall u | u in w.live[..|w.live| - |v.live|] :: u.createdAt + DAY <= expiredUntil)
    && (w.marker == v.marker
        || (v.marker.None? && w.marker.Some? && w.marker.value.score + DAY <= expiredUntil))
  }

  ghost predicate Alike(c: Acct, d: Acct) {
    && d.txs == c.txs && d.deadline == c.deadline
    && Outlives(c.window, d.window, c.expiredUntil)
    && (!c.window.Exists() && d.window.Exists() ==> c.deadline <= c.expiredUntil)
  }

  lemma {:induction false} KeptConcat(p: seq<Tx>, q: seq<Tx>, start: int)
    ensures Kept(p + q, start) == Kept(p, start) + Kept(q, start)
  {
    if q == [] {
      assert p + q == p;
    } else {
      assert (p + q)[..|p + q| - 1] == p + q[..|q| - 1];
      KeptConcat(p, q[..|q| - 1], start);
    }
  }

  // A read dated after the expiry sees the same set in both.
  lemma TrimsAlike(v: Window, w: Window, expiredUntil: int, t: nat)
    requires Outlives(v, w, expiredUntil) && expiredUntil < t
    ensures w.Trim(t - DAY) == v.Trim(t - DAY)
  {
    var old' := w.live[..|w.live| - |v.live|];
    assert w.live == old' + v.live;
    KeptConcat(old', v.live, t - DAY);
    KeptNone(old', t - DAY);
  }

  ghost predicate SameMetrics(m: Metrics, n: Metrics) {
    m.volume == n.volume && m.count == n.count && m.answer == n.answer && m.later == n.later
  }

  lemma HitsAlike(c: Acct, d: Acct, tx: Tx, h: Table, now: int)
    requires Alike(c, d) && c.expiredUntil < tx.createdAt && c.window.Exists()
    ensures var (c', m), (d', n) := OnRead(c, tx, h, now), OnRead(d, tx, h, now);
      Alike(c', d') && SameMetrics(m, n)
  {
    hide OnRead, Outlives, Answer, TrimmedBy, Window.Trim, Recovered, Unrecovered;
    ReadShape(c, tx, h, now);
    ReadShape(d, tx, h, now);
    OutlivesExists(c.window, d.window, c.expiredUntil);
    TrimsAlike(c.window, d.window, c.expiredUntil, tx.createdAt);
    SelfOutlives(c.window.Trim(tx.createdAt - DAY), c.expiredUntil);
  }

  lemma MissesAlike(c: Acct, d: Acct, tx: Tx, h: Table, now: int)
    requires Alike(c, d) && c.expiredUntil < tx.createdAt && !c.window.Exists()
    requires Fresh(c, Out, now) && OnTime(c) && Backed(h, tx.from, c.txs)
    ensures var (c', m), (d', n) := OnRead(c, tx, h, now), OnRead(d, tx, h, now);
      Alike(c', d') && SameMetrics(m, n)
  {
    hide OnRead, Outlives, Answer, TrimmedBy, Window.Trim, Recovered, Unrecovered, Fresh, OnTime, Backed, Read;
    ReadShape(c, tx, h, now);
    ReadShape(d, tx, h, now);
    EmptyTrims(c.window, tx.createdAt - DAY);
    SelfOutlives(OnRead(c, tx, h, now).0.window, c.expiredUntil);
    if d.window.Exists() {
      TrimsAlike(c.window, d.window, c.expiredUntil, tx.createdAt);
      ExpiryInvisible(c, now, tx, h);
    }
  }

  lemma OutlivesExists(v: Window, w: Window, expiredUntil: int)
    requires Outlives(v, w, expiredUntil)
    ensures v.Exists() ==> w.Exists()
  {
  }

  lemma SelfOutlives(w: Window, expiredUntil: int)
    ensures Outlives(w, w, expiredUntil)
  {
  }

  lemma EmptyTrims(w: Window, start: int)
    requires !w.Exists()
    ensures w == EMPTY && w.Trim(start) == EMPTY && EMPTY.Volume() == 0 && EMPTY.Size() == 0
  {
  }

  lemma AddsAlike(c: Acct, d: Acct, tx: Tx, now: int)
    requires Alike(c, d)
    ensures Alike(OnAdd(c, tx, now), OnAdd(d, tx, now))
  {
    var v, w := c.window.live, d.window.live;
    var k := |w| - |v|;
    assert (w + [tx])[..k] == w[..k] && (w + [tx])[k..] == w[k..] + [tx];
  }

  lemma ExpiresAlike(c: Acct, d: Acct, phase: Phase)
    requires Alike(c, d) && Aged(c, phase)
    ensures Alike(OnFlush(c, phase, true), d)
  {
    var k := |d.window.live| - |c.window.live|;
    forall u | u in d.window.live ensures u.createdAt + DAY <= OnFlush(c, phase, true).expiredUntil {
      assert d.window.live == d.window.live[..k] + d.window.live[k..];
    }
    assert d.window.live[..|d.window.live|] == d.window.live && d.window.live[|d.window.live|..] == [];
  }

  // --- The machine with and without them ------------------------------------------------

  // An evaluator without what its read did not see.
  function Blur(pc: Pc): Pc {
    match pc
    case Metered(tx, m) => Metered(tx, m.(missed := []))
    case Counted(tx, m, senders) => Counted(tx, m.(missed := []), senders)
    case Ready(tx, m, ctx) => Ready(tx, m.(missed := []), ctx)
    case Saved(tx, m, ctx) => Saved(tx, m.(missed := []), ctx)
    case Cached(tx, m, ctx) => Cached(tx, m.(missed := []), ctx)
    case Finished(tx, m, added) => Finished(tx, m.(missed := []), added)
    case _ => pc
  }

  predicate PcAlike(p: Pc, q: Pc, a: AccountId) { q == p || (!p.Idle? && p.tx.from == a && Blur(q) == Blur(p)) }

  // Everything but the accounts.
  ghost predicate CoreAlike(s: State, t: State, a: AccountId) {
    && t.locks == s.locks && t.recvs == s.recvs && t.pipe == s.pipe && t.book == s.book && t.now == s.now
    && forall e :: PcAlike(PcOf(s, e), PcOf(t, e), a)
  }

  ghost predicate StatesAlike(s: State, t: State, a: AccountId) {
    && CoreAlike(s, t, a) && Alike(AcctOf(s, a), AcctOf(t, a))
    && forall b | b != a :: AcctOf(t, b) == AcctOf(s, b)
  }

  lemma SameUnsettled(s: State, t: State, a: AccountId, r: AccountId)
    requires CoreAlike(s, t, a)
    ensures UnsettledSenders(s.evals, r) == UnsettledSenders(t.evals, r)
  {
    forall x | x in UnsettledSenders(s.evals, r) ensures x in UnsettledSenders(t.evals, r) {
      var e :| e in s.evals && Unsettled(s.evals[e], r) && s.evals[e].tx.from == x;
      assert PcAlike(PcOf(s, e), PcOf(t, e), a);
      assert e in t.evals && Unsettled(t.evals[e], r);
    }
    forall x | x in UnsettledSenders(t.evals, r) ensures x in UnsettledSenders(s.evals, r) {
      var e :| e in t.evals && Unsettled(t.evals[e], r) && t.evals[e].tx.from == x;
      assert PcAlike(PcOf(s, e), PcOf(t, e), a);
      assert e in s.evals && Unsettled(s.evals[e], r);
    }
  }

  ghost predicate SameCore(s: State, t: State) {
    t.locks == s.locks && t.recvs == s.recvs && t.pipe == s.pipe && t.book == s.book && t.now == s.now
  }

  ghost predicate OnlyMoves(s: State, t: State, e: nat) { forall d | d != e :: PcOf(t, d) == PcOf(s, d) }

  lemma CoreOn(s: State, t: State, s': State, t': State, e: nat, a: AccountId)
    requires CoreAlike(s, t, a) && SameCore(s', t') && OnlyMoves(s, s', e) && OnlyMoves(t, t', e)
    requires PcAlike(PcOf(s', e), PcOf(t', e), a)
    ensures CoreAlike(s', t', a)
  {
    hide PcAlike, PcOf;
    forall d ensures PcAlike(PcOf(s', d), PcOf(t', d), a) {
      assert PcAlike(PcOf(s, d), PcOf(t, d), a);
    }
  }

  // Accounts and receivers aside, a step that moves no evaluator.
  lemma CoreKept(s: State, t: State, s': State, t': State, a: AccountId)
    requires CoreAlike(s, t, a) && SameCore(s', t') && s'.evals == s.evals && t'.evals == t.evals
    ensures CoreAlike(s', t', a)
  {
    hide PcAlike;
    forall d ensures PcAlike(PcOf(s', d), PcOf(t', d), a) {
      assert PcAlike(PcOf(s, d), PcOf(t, d), a);
    }
  }

  lemma ReadingMoves(s: State, e: nat)
    ensures OnlyMoves(s, OnReadVolume(s, e), e) && OnlyMoves(s, OnCountSenders(s, e), e)
    ensures OnlyMoves(s, OnFetchStats(s, e), e)
  {
    hide OnRead, ContextFor, AcctOf, RecvOf;
  }

  lemma CommitMoves(s: State, e: nat)
    ensures OnlyMoves(s, OnCommitStep(s, e), e) && OnlyMoves(s, OnAddVolume(s, e), e)
  {
    hide OnCommit, OnSave, Decide, OnApprove, OnAdd, AcctOf, RecvOf;
  }

  lemma SenderMoves(s: State, e: nat)
    ensures OnlyMoves(s, OnAddSenderStep(s, e), e) && OnlyMoves(s, OnAddSenderFails(s, e), e)
  {
    hide OnAddSender, OnMissSender, AcctOf, RecvOf;
  }

  lemma EndMoves(s: State, e: nat, tx: Tx)
    ensures OnlyMoves(s, OnFailBeforeCommit(s, e), e) && OnlyMoves(s, OnUnlock(s, e), e)
    ensures OnlyMoves(s, OnTryLock(s, e, tx), e)
  {
    hide OnClose, AcctOf;
  }

  // What a read finds, for the account in question and for the others.
  ghost predicate ReadsSame(s: State, t: State, e: nat) {
    PcOf(s, e).Locked? ==>
      var tx := PcOf(s, e).tx;
      SameMetrics(OnRead(AcctOf(s, tx.from), tx, s.pipe.history, s.now).1,
                  OnRead(AcctOf(t, tx.from), tx, t.pipe.history, t.now).1)
  }

  lemma CoreByRead(s: State, t: State, a: AccountId, e: nat)
    requires CoreAlike(s, t, a) && ReadsSame(s, t, e)
    requires forall b | b != a :: AcctOf(t, b) == AcctOf(s, b)
    ensures CoreAlike(OnReadVolume(s, e), OnReadVolume(t, e), a)
  {
    hide OnRead, OnlyMoves;
    assert PcAlike(PcOf(s, e), PcOf(t, e), a);
    ReadingMoves(s, e);
    ReadingMoves(t, e);
    CoreOn(s, t, OnReadVolume(s, e), OnReadVolume(t, e), e, a);
  }

  lemma CoreByCount(s: State, t: State, a: AccountId, e: nat)
    requires CoreAlike(s, t, a)
    ensures CoreAlike(OnCountSenders(s, e), OnCountSenders(t, e), a)
  {
    hide AcctOf, OnlyMoves;
    assert PcAlike(PcOf(s, e), PcOf(t, e), a);
    ReadingMoves(s, e);
    ReadingMoves(t, e);
    CoreOn(s, t, OnCountSenders(s, e), OnCountSenders(t, e), e, a);
  }

  lemma CoreByStats(s: State, t: State, a: AccountId, e: nat)
    requires CoreAlike(s, t, a)
    ensures CoreAlike(OnFetchStats(s, e), OnFetchStats(t, e), a)
  {
    hide FetchGroupedStats, GroupCount, GroupTotal, GroupP2p, Ratio, AcctOf, OnlyMoves;
    assert PcAlike(PcOf(s, e), PcOf(t, e), a);
    ReadingMoves(s, e);
    ReadingMoves(t, e);
    CoreOn(s, t, OnFetchStats(s, e), OnFetchStats(t, e), e, a);
  }

  lemma CommitPc(s: State, e: nat)
    ensures var pc := PcOf(s, e);
      PcOf(OnCommitStep(s, e), e) ==
      if !pc.Ready? then pc
      else if Decide(pc.tx, pc.ctx) != REJECTED then Saved(pc.tx, pc.m, pc.ctx) else Finished(pc.tx, pc.m, false)
  {
    hide OnCommit, OnSave, Decide, OnApprove, AcctOf, RecvOf;
  }

  // Everything a commit changes besides its account and its evaluator.
  lemma CommitCoreIs(s: State, e: nat)
    ensures var pc, t := PcOf(s, e), OnCommitStep(s, e);
      && t.locks == s.locks && t.book == s.book
      && (!pc.Ready? ==> t == s)
      && (pc.Ready? ==>
            var status, to := Decide(pc.tx, pc.ctx), pc.tx.to;
            && t.now == s.now + 1 && t.pipe == OnSave(s.pipe, EventFor(pc.tx, pc.ctx, s.now), s.now)
            && t.recvs == s.recvs[
                 to := if status == APPROVED then OnApprove(RecvOf(s, to), pc.tx.from, s.now) else RecvOf(s, to)])
  {
    hide OnCommit, OnSave, Decide, OnApprove, AcctOf;
  }

  lemma CommitCore(s: State, t: State, a: AccountId, e: nat)
    requires SameCore(s, t) && PcAlike(PcOf(s, e), PcOf(t, e), a)
    ensures SameCore(OnCommitStep(s, e), OnCommitStep(t, e))
  {
    hide OnCommitStep, OnSave, Decide, OnApprove, PcOf;
    CommitCoreIs(s, e);
    CommitCoreIs(t, e);
  }

  lemma CommitAlike(s: State, t: State, a: AccountId, e: nat)
    requires SameCore(s, t) && PcAlike(PcOf(s, e), PcOf(t, e), a)
    ensures SameCore(OnCommitStep(s, e), OnCommitStep(t, e))
    ensures PcAlike(PcOf(OnCommitStep(s, e), e), PcOf(OnCommitStep(t, e), e), a)
  {
    hide OnCommitStep, Decide, SameCore, PcOf;
    CommitPc(s, e);
    CommitPc(t, e);
    CommitCore(s, t, a, e);
  }

  lemma CoreByCommit(s: State, t: State, a: AccountId, e: nat)
    requires CoreAlike(s, t, a)
    ensures CoreAlike(OnCommitStep(s, e), OnCommitStep(t, e), a)
  {
    hide OnCommitStep, OnlyMoves, PcOf;
    assert PcAlike(PcOf(s, e), PcOf(t, e), a);
    CommitAlike(s, t, a, e);
    CommitMoves(s, e);
    CommitMoves(t, e);
    CoreOn(s, t, OnCommitStep(s, e), OnCommitStep(t, e), e, a);
  }

  lemma CoreByAdd(s: State, t: State, a: AccountId, e: nat)
    requires CoreAlike(s, t, a)
    ensures CoreAlike(OnAddVolume(s, e), OnAddVolume(t, e), a)
  {
    hide OnAdd, AcctOf, OnlyMoves;
    assert PcAlike(PcOf(s, e), PcOf(t, e), a);
    CommitMoves(s, e);
    CommitMoves(t, e);
    CoreOn(s, t, OnAddVolume(s, e), OnAddVolume(t, e), e, a);
  }

  lemma SenderPc(s: State, e: nat)
    ensures var pc := PcOf(s, e);
      PcOf(OnAddSenderStep(s, e), e) == PcOf(OnAddSenderFails(s, e), e) ==
      if pc.Cached? then Finished(pc.tx, pc.m, true) else pc
  {
    hide OnAddSender, OnMissSender, AcctOf, RecvOf;
  }

  lemma SenderCore(s: State, t: State, a: AccountId, e: nat)
    requires SameCore(s, t) && PcAlike(PcOf(s, e), PcOf(t, e), a)
    ensures SameCore(OnAddSenderStep(s, e), OnAddSenderStep(t, e))
    ensures SameCore(OnAddSenderFails(s, e), OnAddSenderFails(t, e))
  {
    hide OnAddSender, OnMissSender, AcctOf, PcOf;
  }

  lemma SenderAlike(s: State, t: State, a: AccountId, e: nat)
    requires SameCore(s, t) && PcAlike(PcOf(s, e), PcOf(t, e), a)
    ensures SameCore(OnAddSenderStep(s, e), OnAddSenderStep(t, e))
    ensures SameCore(OnAddSenderFails(s, e), OnAddSenderFails(t, e))
    ensures PcAlike(PcOf(OnAddSenderStep(s, e), e), PcOf(OnAddSenderStep(t, e), e), a)
    ensures PcAlike(PcOf(OnAddSenderFails(s, e), e), PcOf(OnAddSenderFails(t, e), e), a)
  {
    hide OnAddSenderStep, OnAddSenderFails, SameCore, PcOf;
    SenderPc(s, e);
    SenderPc(t, e);
    SenderCore(s, t, a, e);
  }

  lemma CoreBySender(s: State, t: State, a: AccountId, e: nat)
    requires CoreAlike(s, t, a)
    ensures CoreAlike(OnAddSenderStep(s, e), OnAddSenderStep(t, e), a)
    ensures CoreAlike(OnAddSenderFails(s, e), OnAddSenderFails(t, e), a)
  {
    hide OnAddSenderStep, OnAddSenderFails, OnlyMoves, PcOf;
    assert PcAlike(PcOf(s, e), PcOf(t, e), a);
    SenderAlike(s, t, a, e);
    SenderMoves(s, e);
    SenderMoves(t, e);
    CoreOn(s, t, OnAddSenderStep(s, e), OnAddSenderStep(t, e), e, a);
    CoreOn(s, t, OnAddSenderFails(s, e), OnAddSenderFails(t, e), e, a);
  }

  lemma CoreByFail(s: State, t: State, a: AccountId, e: nat)
    requires CoreAlike(s, t, a)
    ensures CoreAlike(OnFailBeforeCommit(s, e), OnFailBeforeCommit(t, e), a)
  {
    hide OnClose, AcctOf, OnlyMoves;
    var tx: Tx :| true;
    assert PcAlike(PcOf(s, e), PcOf(t, e), a);
    EndMoves(s, e, tx);
    EndMoves(t, e, tx);
    CoreOn(s, t, OnFailBeforeCommit(s, e), OnFailBeforeCommit(t, e), e, a);
  }

  lemma CoreByUnlock(s: State, t: State, a: AccountId, e: nat)
    requires CoreAlike(s, t, a)
    ensures CoreAlike(OnUnlock(s, e), OnUnlock(t, e), a)
  {
    hide OnClose, AcctOf, OnlyMoves;
    var tx: Tx :| true;
    assert PcAlike(PcOf(s, e), PcOf(t, e), a);
    EndMoves(s, e, tx);
    EndMoves(t, e, tx);
    CoreOn(s, t, OnUnlock(s, e), OnUnlock(t, e), e, a);
  }

  lemma CoreByLock(s: State, t: State, a: AccountId, e: nat, tx: Tx)
    requires CoreAlike(s, t, a)
    ensures CoreAlike(OnTryLock(s, e, tx), OnTryLock(t, e, tx), a)
  {
    hide OnlyMoves;
    assert PcAlike(PcOf(s, e), PcOf(t, e), a);
    EndMoves(s, e, tx);
    EndMoves(t, e, tx);
    CoreOn(s, t, OnTryLock(s, e, tx), OnTryLock(t, e, tx), e, a);
  }

  lemma CoreByVolumeFlush(s: State, t: State, a: AccountId, b: AccountId, expired: bool)
    requires CoreAlike(s, t, a)
    ensures CoreAlike(OnFlushVolume(s, b, expired), OnFlushVolume(t, b, expired), a)
    ensures CoreAlike(OnFlushVolume(s, b, expired), t, a)
  {
    hide OnFlush, AcctOf, Holder, PcAlike;
    CoreKept(s, t, OnFlushVolume(s, b, expired), OnFlushVolume(t, b, expired), a);
    CoreKept(s, t, OnFlushVolume(s, b, expired), t, a);
  }

  lemma CoreBySenderFlush(s: State, t: State, a: AccountId, r: AccountId, expired: bool)
    requires CoreAlike(s, t, a)
    ensures CoreAlike(OnFlushSendersStep(s, r, expired), OnFlushSendersStep(t, r, expired), a)
  {
    hide OnFlushSenders, UnsettledSenders, PcAlike;
    SameUnsettled(s, t, a, r);
    CoreKept(s, t, OnFlushSendersStep(s, r, expired), OnFlushSendersStep(t, r, expired), a);
  }

  lemma CoreByStep(s: State, t: State, a: AccountId, action: Action)
    requires CoreAlike(s, t, a) && !action.AddVolumeFails? && !action.Crash?
    requires forall b | b != a :: AcctOf(t, b) == AcctOf(s, b)
    requires action.ReadVolume? ==> ReadsSame(s, t, action.e)
    ensures CoreAlike(Step(s, action), Step(t, action), a)
  {
    hide ReadsSame, OnTryLock, OnReadVolume, OnCountSenders, OnFetchStats, OnCommitStep, OnFailBeforeCommit,
      OnAddVolume, OnAddSenderStep, OnAddSenderFails, OnUnlock, OnFlushVolume, OnFlushSendersStep, PStep,
      CoreAlike, AcctOf;
    match action
    case TryLock(e, tx) => CoreByLock(s, t, a, e, tx);
    case ReadVolume(e) => CoreByRead(s, t, a, e);
    case CountSenders(e) => CoreByCount(s, t, a, e);
    case FetchStats(e) => CoreByStats(s, t, a, e);
    case Commit(e) => CoreByCommit(s, t, a, e);
    case FailBeforeCommit(e) => CoreByFail(s, t, a, e);
    case AddVolume(e) => CoreByAdd(s, t, a, e);
    case AddSender(e) => CoreBySender(s, t, a, e);
    case AddSenderFails(e) => CoreBySender(s, t, a, e);
    case Unlock(e) => CoreByUnlock(s, t, a, e);
    case LoseVolume(b) => CoreByVolumeFlush(s, t, a, b, false);
    case ExpireVolume(b) => CoreByVolumeFlush(s, t, a, b, true);
    case LoseSenders(r) => CoreBySenderFlush(s, t, a, r, false);
    case ExpireSenders(r) => CoreBySenderFlush(s, t, a, r, true);
    case Tick(d) => CoreByTick(s, t, a, d);
    case Background(pa) =>
      SamePipe(s, t, a);
      CoreByBackground(s, t, a, PStep(s.pipe, pa));
  }

  lemma CoreByTick(s: State, t: State, a: AccountId, d: nat)
    requires CoreAlike(s, t, a)
    ensures CoreAlike(s.(now := s.now + d), t.(now := t.now + d), a)
  {
    hide PcAlike, PcOf;
    CoreKept(s, t, s.(now := s.now + d), t.(now := t.now + d), a);
  }

  lemma CoreByBackground(s: State, t: State, a: AccountId, p: Pipe)
    requires CoreAlike(s, t, a)
    ensures CoreAlike(s.(pipe := p), t.(pipe := p), a)
  {
    hide PcAlike, PcOf;
    CoreKept(s, t, s.(pipe := p), t.(pipe := p), a);
  }

  lemma SamePipe(s: State, t: State, a: AccountId)
    requires CoreAlike(s, t, a)
    ensures t.pipe == s.pipe
  {
  }

  // --- The accounts --------------------------------------------------------------------------

  lemma OthersByStep(s: State, t: State, a: AccountId, action: Action, b: AccountId)
    requires CoreAlike(s, t, a) && Mutex(s) && b != a && AcctOf(t, b) == AcctOf(s, b)
    requires !action.AddVolumeFails? && !action.Crash?
    ensures AcctAfter(t, action, b) == AcctAfter(s, action, b)
  {
    hide OnRead, OnCommit, OnAdd, OnClose, OnFlush, Decide, Holder, Mutex, AcctOf;
    SameHolder(s, t, a, b);
    if action.ReadVolume? || action.Commit? || action.FailBeforeCommit? || action.AddVolume? || action.Unlock? {
      assert PcAlike(PcOf(s, action.e), PcOf(t, action.e), a);
      assert At(s, action.e, b) || At(t, action.e, b) ==> PcOf(t, action.e) == PcOf(s, action.e);
    }
  }

  lemma SameHolder(s: State, t: State, a: AccountId, b: AccountId)
    requires CoreAlike(s, t, a) && Mutex(s) && b != a
    ensures Holder(t, b) == Holder(s, b)
  {
    if b in s.locks {
      assert PcAlike(PcOf(s, s.locks[b]), PcOf(t, s.locks[b]), a);
    }
  }

  lemma AlikeByCommit(c: Acct, d: Acct, tx: Tx, m: Metrics, n: Metrics, status: TransactionStatus)
    requires Alike(c, d)
    ensures Alike(OnCommit(c, tx, m, status), OnCommit(d, tx, n, status))
  {
    hide Outlives, InTrail, Passes;
  }

  lemma AlikeByClose(c: Acct, d: Acct, phase: Phase, next: Phase)
    requires Alike(c, d) && (phase.Reads? || phase.Settled?) && (next.Reads? || next.Settled?)
    ensures Alike(OnClose(c, phase), OnClose(d, next))
  {
    hide Outlives, CallOf;
  }

  // An action that leaves the account alone.
  predicate Passive(s: State, action: Action, a: AccountId) {
    match action
    case ReadVolume(e) => !At(s, e, a) || !PcOf(s, e).Locked?
    case Commit(e) => !At(s, e, a) || !PcOf(s, e).Ready?
    case FailBeforeCommit(e) => !At(s, e, a) || !PhaseOf(PcOf(s, e)).Reads?
    case AddVolume(e) => !At(s, e, a) || !PcOf(s, e).Saved?
    case Unlock(e) => !At(s, e, a) || !PcOf(s, e).Finished?
    case AddVolumeFails(_) => false
    case Crash(_) => false
    case LoseVolume(b) => b != a
    case ExpireVolume(b) => b != a
    case _ => true
  }

  lemma PassiveKeeps(s: State, action: Action, a: AccountId)
    requires Passive(s, action, a)
    ensures AcctAfter(s, action, a) == AcctOf(s, a)
  {
    hide OnRead, OnCommit, OnAdd, OnClose, OnFlush, Decide, Holder;
  }

  lemma PassiveAlike(s: State, t: State, action: Action, a: AccountId)
    requires CoreAlike(s, t, a)
    ensures Passive(s, action, a) <==> Passive(t, action, a)
  {
    if action.ReadVolume? || action.Commit? || action.FailBeforeCommit? || action.AddVolume? || action.Unlock? {
      assert PcAlike(PcOf(s, action.e), PcOf(t, action.e), a);
    }
  }

  lemma AlikeByWork(s: State, t: State, a: AccountId, action: Action)
    requires StatesAlike(s, t, a) && (action.Commit? || action.AddVolume? || action.FailBeforeCommit? || action.Unlock?)
    requires At(s, action.e, a)
    requires || (action.Commit? && PcOf(s, action.e).Ready?) || (action.AddVolume? && PcOf(s, action.e).Saved?)
             || (action.FailBeforeCommit? && PhaseOf(PcOf(s, action.e)).Reads?)
             || (action.Unlock? && PcOf(s, action.e).Finished?)
    ensures Alike(AcctAfter(s, action, a), AcctAfter(t, action, a))
  {
    hide OnRead, OnAdd, OnCommit, OnClose, Alike, Decide, Holder, AcctOf;
    var c, d, p, q := AcctOf(s, a), AcctOf(t, a), PcOf(s, action.e), PcOf(t, action.e);
    assert PcAlike(p, q, a);
    if action.AddVolume? {
      AddsAlike(c, d, p.tx, s.now);
    } else if action.Commit? {
      AlikeByCommit(c, d, p.tx, p.m, q.m, Decide(p.tx, p.ctx));
    } else {
      AlikeByClose(c, d, PhaseOf(p), PhaseOf(q));
    }
  }

  lemma AlikeByRead(s: State, t: State, a: AccountId, e: nat)
    requires StatesAlike(s, t, a) && At(s, e, a) && PcOf(s, e).Locked?
    ensures var tx := PcOf(s, e).tx;
      && AcctAfter(s, ReadVolume(e), a) == OnRead(AcctOf(s, a), tx, s.pipe.history, s.now).0
      && AcctAfter(t, ReadVolume(e), a) == OnRead(AcctOf(t, a), tx, s.pipe.history, s.now).0
  {
    hide OnRead;
    assert PcAlike(PcOf(s, e), PcOf(t, e), a);
  }

  // A read finds the same in both.
  lemma ReadsBoth(s: State, t: State, a: AccountId, e: nat)
    requires StatesAlike(s, t, a) && Inv(s) && PcOf(s, e).Locked?
    requires At(s, e, a) ==> OnTime(AcctOf(s, a)) && AcctOf(s, a).expiredUntil < PcOf(s, e).tx.createdAt
    ensures ReadsSame(s, t, e)
    ensures At(s, e, a) ==> Alike(AcctAfter(s, ReadVolume(e), a), AcctAfter(t, ReadVolume(e), a))
  {
    hide OnRead, Good, Stored, Alike, Fresh, AcctAfter, PcAlike;
    var tx := PcOf(s, e).tx;
    if At(s, e, a) {
      HistoryBacked(s, a);
      FreshAtRead(s, e, a);
      AlikeByRead(s, t, a, e);
      if AcctOf(s, a).window.Exists() {
        HitsAlike(AcctOf(s, a), AcctOf(t, a), tx, s.pipe.history, s.now);
      } else {
        MissesAlike(AcctOf(s, a), AcctOf(t, a), tx, s.pipe.history, s.now);
      }
    }
  }

  lemma AlikeByStep(s: State, t: State, a: AccountId, action: Action)
    requires StatesAlike(s, t, a) && Inv(s) && action != ExpireVolume(a)
    requires !action.AddVolumeFails? && !action.Crash? && !action.LoseVolume?
    requires OnTime(AcctOf(s, a))
    requires ReadsFor(s, action, a) ==> AcctOf(s, a).expiredUntil < PcOf(s, action.e).tx.createdAt
    ensures StatesAlike(Step(s, action), Step(t, action), a)
  {
    hide Step, Inv, Alike, CoreAlike, OnTime, AcctAfter, AcctOf, ReadsSame;
    if action.ReadVolume? {
      if PcOf(s, action.e).Locked? {
        ReadsBoth(s, t, a, action.e);
      } else {
        assert ReadsSame(s, t, action.e) by { NothingRead(s, t, action.e); }
      }
    }
    CoreByStep(s, t, a, action);
    forall b | b != a ensures AcctOf(Step(t, action), b) == AcctOf(Step(s, action), b) {
      MutexFrom(s);
      OthersByStep(s, t, a, action, b);
      AcctByStep(s, action, b);
      AcctByStep(t, action, b);
    }
    AcctByStep(s, action, a);
    AcctByStep(t, action, a);
    if Passive(s, action, a) {
      PassiveAlike(s, t, action, a);
      PassiveKeeps(s, action, a);
      PassiveKeeps(t, action, a);
    } else if !action.ReadVolume? {
      AlikeByWork(s, t, a, action);
    }
  }

  lemma NothingRead(s: State, t: State, e: nat)
    requires !PcOf(s, e).Locked?
    ensures ReadsSame(s, t, e)
  {
  }

  lemma MutexFrom(s: State)
    requires Inv(s)
    ensures Mutex(s)
  {
  }

  // The expiry itself, which the other run leaves out.
  lemma AlikeByExpiry(s: State, t: State, a: AccountId)
    requires StatesAlike(s, t, a) && Inv(s) && OnTime(AcctOf(s, a))
    ensures StatesAlike(Step(s, ExpireVolume(a)), t, a)
  {
    hide Inv, Alike, CoreAlike, OnTime, OnFlush, OnFlushVolume;
    CoreByVolumeFlush(s, t, a, a, true);
    AgedNow(s, a);
    ExpiresAlike(AcctOf(s, a), AcctOf(t, a), Holder(s, a));
    forall b ensures AcctOf(OnFlushVolume(s, a, true), b) ==
                     if b == a && Expires(s, a) then OnFlush(AcctOf(s, a), Holder(s, a), true) else AcctOf(s, b) {
      AcctByFlush(s, a, b);
    }
  }

  lemma AgedNow(s: State, a: AccountId)
    requires Inv(s) && OnTime(AcctOf(s, a))
    ensures Aged(AcctOf(s, a), Holder(s, a))
  {
    hide Safe, Close, Watched, Serialized, Exact, Aged, CountMeans, Stored, Informed, Mutex;
    assert Good(AcctOf(s, a), Holder(s, a), a, s.now);
  }

  // --- Every run --------------------------------------------------------------------------------

  lemma StartsAlike(a: AccountId)
    ensures StatesAlike(BOOT, BOOT, a)
  {
  }

  // A run without failures, without transactions of the account dated ahead of the clock at their read, and
  // without a read dated at or before an earlier expiry of its set: leaving those expiries out gives the
  // same log, tables, locks, sender sets and evaluators, and a set that differs by nothing but entries at
  // least 24 hours older than an expired deadline.
  lemma {:induction false} ExpiryRefines(actions: seq<Action>, a: AccountId)
    requires Reliable(actions) && NotAhead(actions, a) && AfterExpiries(actions, a)
    ensures StatesAlike(Run(actions), Run(WithoutExpiry(actions, a)), a)
  {
    hide Step, StatesAlike, Inv, OnTime, ReadsFor, NotAhead, AfterExpiries;
    if actions == [] {
      StartsAlike(a);
    } else {
      var n := |actions| - 1;
      var s := Run(actions[..n]);
      PrefixKeeps(actions, a, 0);
      ExpiryRefines(actions[..n], a);
      EveryRun(actions[..n]);
      TimelyRun(actions[..n], a);
      if actions[n] == ExpireVolume(a) {
        AlikeByExpiry(s, Run(WithoutExpiry(actions[..n], a)), a);
      } else {
        ReadsAfterExpiries(actions, a);
        AlikeByStep(s, Run(WithoutExpiry(actions[..n], a)), a, actions[n]);
      }
      WithoutExpirySnoc(actions, a);
    }
  }

  lemma WithoutExpirySnoc(actions: seq<Action>, a: AccountId)
    requires actions != []
    ensures var rest, last := WithoutExpiry(actions[..|actions| - 1], a), actions[|actions| - 1];
      Run(WithoutExpiry(actions, a)) == if last == ExpireVolume(a) then Run(rest) else Step(Run(rest), last)
  {
    hide Step;
    var rest, last := WithoutExpiry(actions[..|actions| - 1], a), actions[|actions| - 1];
    assert rest + [] == rest && (rest + [last])[..|rest|] == rest;
  }

  lemma ReadsAfterExpiries(actions: seq<Action>, a: AccountId)
    requires actions != [] && AfterExpiries(actions, a)
    ensures var n := |actions| - 1; var s := Run(actions[..n]);
      ReadsFor(s, actions[n], a) ==> AcctOf(s, a).expiredUntil < PcOf(s, actions[n].e).tx.createdAt
  {
    hide Run, ExpiresAt;
    var n := |actions| - 1;
    if ReadsFor(Run(actions[..n]), actions[n], a) {
      ExpiredBefore(actions, a, n, PcOf(Run(actions[..n]), actions[n].e).tx.createdAt);
    }
  }
}
