/** The invariant of the whole machine and why every action keeps it. */
module Interleaving {
  import opened Domain
  import opened Verdict
  import opened Rules
  import opened Sums
  import opened History
  import opened Window
  import opened Account
  import opened Limit
  import opened Sandwich
  import opened Serial
  import opened Pattern
  import opened Watch
  import opened Burst
  import opened Expiry
  import opened Dormancy
  import opened Receivers
  import opened Pipeline
  import opened Convergence
  import opened Machine

  // --- One account -------------------------------------------------------------

  ghost predicate Good(c: Acct, phase: Phase, a: AccountId, now: int) {
    && Safe(c, phase, a) && Close(c, phase) && Watched(c, phase) && Serialized(c, phase)
    && Exact(c, phase) && Fresh(c, phase, now) && CountMeans(c, phase)
  }

  lemma GoodNew(a: AccountId, now: nat)
    ensures Good(NEW, Out, a, now)
  {
    assert forall s: int :: From([], s) == 0;
    assert forall lo: int, hi: int :: Within([], lo, hi) == 0;
  }

  lemma GoodByTick(c: Acct, phase: Phase, a: AccountId, now: int, later: int)
    requires Good(c, phase, a, now) && now <= later
    ensures Good(c, phase, a, later)
  {
    hide Safe, Close, Watched, Serialized, Exact, Fresh, CountMeans;
    FreshByTick(c, phase, now, later);
  }

  lemma WholeBetween(c: Acct)
    requires Serialized(c, Out)
    ensures !c.torn
  {
    hide Recorded, Judged, Expected, Undisturbed;
  }

  lemma EndsInProgress(c: Acct, phase: Phase)
    requires Watched(c, phase) && (phase.Reads? || phase.Committed?)
    ensures EndsWith(c, phase.tx, if phase.Reads? then Aborted else Entered)
  {
    hide Summed, Sighted, EveryWindow, HasTurn, LostIn, TrimmedIn, TurnTimes;
  }

  lemma GoodByRead(c: Acct, a: AccountId, tx: Tx, h: Table, now: int)
    requires Good(c, Out, a, now) && tx.from == a && Backed(h, a, c.txs)
    ensures var (d, m) := OnRead(c, tx, h, now); Good(d, Reads(tx, m), a, now)
  {
    hide OnRead, Ledger, Current, Decision, Bounded, Dated, InOrder, Between, Watched, Serialized, Exact, Fresh,
      CountMeans, Backed;
    SafeByRead(c, a, tx, h, now);
    CloseByRead(c, a, tx, h, now);
    WholeBetween(c);
    WatchedByRead(c, a, tx, h, now);
    SerializedByRead(c, tx, h, now);
    ExactByRead(c, tx, h, now);
    FreshByRead(c, tx, h, now);
    CountMeansByRead(c, a, tx, h, now);
  }

  lemma GoodByCommit(c: Acct, a: AccountId, tx: Tx, m: Metrics, status: TransactionStatus, now: int)
    requires Good(c, Reads(tx, m), a, now) && (status == APPROVED ==> Passes(tx, m))
    ensures Good(OnCommit(c, tx, m, status), Committed(tx, m), a, now)
  {
    hide OnCommit, Ledger, Current, Decision, Bounded, Close, Watched, Serialized, Exact, Fresh, Passes;
    SafeByCommit(c, a, tx, m, status);
    CloseByCommit(c, tx, m, status);
    WatchedByCommit(c, tx, m, status);
    SerializedByCommit(c, tx, m, status);
    ExactByCommit(c, tx, m, status);
    EndsInProgress(c, Reads(tx, m));
    FreshByCommit(c, tx, m, status, now);
  }

  lemma GoodByAdd(c: Acct, a: AccountId, tx: Tx, m: Metrics, now: int)
    requires Good(c, Committed(tx, m), a, now)
    ensures Good(OnAdd(c, tx, now), Settled(tx, m, true), a, now)
  {
    hide OnAdd, Safe, Close, Watched, Serialized, Exact, Fresh;
    SafeByAdd(c, a, tx, m, now);
    CloseByAdd(c, tx, m, now);
    WatchedByAdd(c, tx, m, now);
    SerializedByAdd(c, tx, m, now);
    ExactByAdd(c, tx, m, now);
    EndsInProgress(c, Committed(tx, m));
    FreshByAdd(c, tx, m, now);
  }

  lemma GoodByDrop(c: Acct, a: AccountId, tx: Tx, m: Metrics, now: int)
    requires Good(c, Committed(tx, m), a, now)
    ensures Good(OnDrop(c, tx), Settled(tx, m, false), a, now)
  {
    hide Safe, Close, Watched, Serialized, Fits, OneDay, Fresh;
    SafeByDrop(c, a, tx, m);
    CloseByDrop(c, tx, m);
    WatchedByDrop(c, tx, m);
    SerializedByDrop(c, tx, m);
    FreshByDrop(c, tx, m, now);
  }

  lemma GoodByFlush(c: Acct, phase: Phase, a: AccountId, expired: bool, now: int)
    requires Good(c, phase, a, now) && c.window.Exists()
    ensures Good(OnFlush(c, phase, expired), phase, a, now)
  {
    hide Ledger, Current, Decision, Bounded, Close, Watched, Serialized, Fits, OneDay, Fresh, CountMeans, WithTear;
    if phase.Reads? || phase.Committed? {
      EndsInProgress(c, phase);
    }
    SafeByFlush(c, phase, a, expired);
    CloseByFlush(c, phase, expired);
    WatchedByFlush(c, phase, a, expired);
    SerializedByFlush(c, phase, expired);
    FreshByFlush(c, phase, expired, now);
    CountMeansByFlush(c, phase, expired);
  }

  lemma GoodByClose(c: Acct, phase: Phase, a: AccountId, now: int)
    requires Good(c, phase, a, now) && (phase.Reads? || phase.Settled?)
    ensures Good(OnClose(c, phase), Out, a, now)
  {
    hide OnClose, Safe, Close, Watched, Serialized, Exact, Fresh;
    SafeByClose(c, phase, a);
    CloseByClose(c, phase);
    WatchedByClose(c, phase);
    SerializedByClose(c, phase);
    ExactByClose(c, phase);
    FreshByClose(c, phase, now);
  }

  // --- Locks --------------------------------------------------------------------

  // A lock is held exactly by the one evaluator inside its account's critical section.
  ghost predicate Mutex(s: State) {
    && (forall e | e in s.evals && !s.evals[e].Idle? ::
          s.evals[e].tx.from in s.locks && s.locks[s.evals[e].tx.from] == e)
    && (forall a | a in s.locks ::
          var e := s.locks[a]; e in s.evals && !s.evals[e].Idle? && s.evals[e].tx.from == a)
  }

  ghost predicate Untouched(s: State, t: State, a: AccountId) {
    Holder(t, a) == Holder(s, a) && AcctOf(t, a) == AcctOf(s, a)
  }

  lemma HeldBy(s: State, e: nat)
    requires Mutex(s) && !PcOf(s, e).Idle?
    ensures Holder(s, PcOf(s, e).tx.from) == PhaseOf(PcOf(s, e))
  {
  }

  lemma MoveFrame(s: State, e: nat, pc: Pc, c: Acct)
    requires Mutex(s) && !PcOf(s, e).Idle? && !pc.Idle? && pc.tx == PcOf(s, e).tx
    ensures Mutex(Move(s, e, pc, c))
    ensures Holder(Move(s, e, pc, c), pc.tx.from) == PhaseOf(pc) && AcctOf(Move(s, e, pc, c), pc.tx.from) == c
    ensures forall b | b != pc.tx.from :: Untouched(s, Move(s, e, pc, c), b)
  {
  }

  lemma LeaveFrame(s: State, e: nat, c: Acct)
    requires Mutex(s) && !PcOf(s, e).Idle?
    ensures var a := PcOf(s, e).tx.from; var t := Leave(s, e, a, c);
      && Mutex(t) && Holder(t, a) == Out && AcctOf(t, a) == c
      && forall b | b != a :: Untouched(s, t, b)
  {
  }

  lemma LockFrame(s: State, e: nat, tx: Tx)
    requires Mutex(s)
    ensures Mutex(OnTryLock(s, e, tx))
    ensures forall b :: Untouched(s, OnTryLock(s, e, tx), b)
  {
  }

  // --- The store --------------------------------------------------------------------

  function TxsOf(es: seq<Event>, a: AccountId): seq<Tx> {
    if es == [] then []
    else
      var last := es[|es| - 1];
      TxsOf(es[..|es| - 1], a) + if last.tx.from == a then [last.tx] else []
  }

  function ApprovedOf(es: seq<Event>, a: AccountId): seq<Tx> {
    if es == [] then []
    else
      var last := es[|es| - 1];
      ApprovedOf(es[..|es| - 1], a) + if last.tx.from == a && last.status == APPROVED then [last.tx] else []
  }

  // Whether the daily-volume rule passed the event.
  predicate VolumePassed(e: Event) {
    exists i | 0 <= i < |e.results| ::
      e.results[i].ruleId == Code(DailyVolumeLimit) && e.results[i].status == RulePassed
  }

  function VerdictsOf(es: seq<Event>, a: AccountId): seq<bool> {
    if es == [] then []
    else
      var last := es[|es| - 1];
      VerdictsOf(es[..|es| - 1], a) + if last.tx.from == a then [VolumePassed(last)] else []
  }

  lemma {:induction false} TxsOfMembers(es: seq<Event>, a: AccountId)
    ensures forall e | e in es && e.tx.from == a :: e.tx in TxsOf(es, a)
    ensures forall u | u in TxsOf(es, a) :: u.from == a && exists e :: e in es && e.tx == u
  {
    if es != [] {
      TxsOfMembers(es[..|es| - 1], a);
      assert es == es[..|es| - 1] + [es[|es| - 1]];
    }
  }

  // The account's record tells the story of the log.
  ghost predicate LinkedTo(c: Acct, es: seq<Event>, a: AccountId) {
    c.txs == TxsOf(es, a) && c.verdicts == VerdictsOf(es, a) && c.approved == ApprovedOf(es, a)
  }

  ghost predicate Linked(s: State) {
    forall a :: LinkedTo(AcctOf(s, a), Events(s.pipe.wal), a)
  }

  ghost predicate DistinctRules(e: Event) {
    forall i, j | 0 <= i < j < |e.results| :: e.results[i].ruleId != e.results[j].ruleId
  }

  ghost predicate Booked(s: State) {
    && (forall e | e in s.evals && !s.evals[e].Idle? ::
          KeyOf(s.evals[e].tx) in s.book && s.book[KeyOf(s.evals[e].tx)] == s.evals[e].tx)
    && (forall e | e in Events(s.pipe.wal) ::
          && KeyOf(e.tx) in s.book && s.book[KeyOf(e.tx)] == e.tx
          && e.evaluatedAt < s.now && DistinctRules(e)
          && e.status == StatusOf(e.results) && e.status != REJECTED)
    && (forall e, f | e in Events(s.pipe.wal) && f in Events(s.pipe.wal) && e.evaluatedAt == f.evaluatedAt :: e == f)
  }

  ghost predicate Stored(s: State) {
    && Sound(s.pipe) && s.pipe.rows == RowsOf(Events(s.pipe.wal))
    && Linked(s) && Booked(s)
  }

  lemma EventsCoherent(s: State)
    requires Booked(s)
    ensures Coherent(Events(s.pipe.wal))
  {
    var es := Events(s.pipe.wal);
    forall e, f, i: nat, j: nat |
      e in es && f in es && i < |e.results| && j < |f.results| && AKeyOf(e, i) == AKeyOf(f, j)
      ensures ARowOf(e, i) == ARowOf(f, j)
    {
      assert e == f;
      assert i == j by { assert DistinctRules(e); }
    }
  }

  lemma HistoryBacked(s: State, a: AccountId)
    requires Stored(s)
    ensures Backed(s.pipe.history, a, AcctOf(s, a).txs)
  {
    var es, h, q := Events(s.pipe.wal), s.pipe.history, AcctOf(s, a).txs;
    TxsOfMembers(es, a);
    forall k | k in h && k.from == a ensures exists u :: u in q && KeyOf(u) == k {
      assert RowSourced(s.pipe.topic, k, h[k]);
      var e :| e in s.pipe.topic && KeyOf(e.tx) == k;
      assert e.tx in q;
    }
    forall u | u in q && KeyOf(u) in h ensures h[KeyOf(u)].amount == u.amount {
      assert RowSourced(s.pipe.topic, KeyOf(u), h[KeyOf(u)]);
      var e :| e in s.pipe.topic && KeyOf(e.tx) == KeyOf(u) && RowOf(e.tx) == h[KeyOf(u)];
      var f :| f in es && f.tx == u;
      assert e.tx == f.tx;
    }
  }

  // --- The invariant -----------------------------------------------------------------

  ghost predicate AllGood(s: State) {
    forall a :: Good(AcctOf(s, a), Holder(s, a), a, s.now)
  }

  // The context an evaluator decides on carries the volume it read.
  ghost predicate Informed(s: State) {
    forall e | e in s.evals && s.evals[e].Ready? :: s.evals[e].ctx.volume24h == s.evals[e].m.volume
  }

  ghost predicate Inv(s: State) { Mutex(s) && Informed(s) && AllGood(s) && Stored(s) }

  predicate SameStory(c: Acct, d: Acct) {
    d.txs == c.txs && d.verdicts == c.verdicts && d.approved == c.approved
  }

  // Everything but one account is untouched, and its committed transactions did not change.
  lemma InvFrame(s: State, t: State, a: AccountId)
    requires Inv(s) && Mutex(t) && Informed(t) && t.pipe == s.pipe && t.now == s.now && Booked(t)
    requires forall b | b != a :: Untouched(s, t, b)
    requires SameStory(AcctOf(s, a), AcctOf(t, a))
    requires Good(AcctOf(t, a), Holder(t, a), a, t.now)
    ensures Inv(t)
  {
    hide Good;
    forall b ensures Good(AcctOf(t, b), Holder(t, b), b, t.now) {
      assert b != a ==> Untouched(s, t, b);
    }
    assert Linked(t) by {
      forall b ensures LinkedTo(AcctOf(t, b), Events(t.pipe.wal), b) {
        assert LinkedTo(AcctOf(s, b), Events(s.pipe.wal), b);
        assert b != a ==> Untouched(s, t, b);
      }
    }
  }

  lemma InvByMove(s: State, e: nat, pc: Pc, c: Acct)
    requires Inv(s) && !PcOf(s, e).Idle? && !pc.Idle? && pc.tx == PcOf(s, e).tx
    requires SameStory(AcctOf(s, pc.tx.from), c)
    requires Good(c, PhaseOf(pc), pc.tx.from, s.now)
    requires pc.Ready? ==> pc.ctx.volume24h == pc.m.volume
    ensures Inv(Move(s, e, pc, c))
  {
    hide Good;
    MoveFrame(s, e, pc, c);
    InvFrame(s, Move(s, e, pc, c), pc.tx.from);
  }

  lemma InvByLeave(s: State, e: nat, c: Acct)
    requires Inv(s) && !PcOf(s, e).Idle?
    requires var a := PcOf(s, e).tx.from;
      SameStory(AcctOf(s, a), c) && Good(c, Out, a, s.now)
    ensures Inv(Leave(s, e, PcOf(s, e).tx.from, c))
  {
    hide Good;
    LeaveFrame(s, e, c);
    InvFrame(s, Leave(s, e, PcOf(s, e).tx.from, c), PcOf(s, e).tx.from);
  }

  lemma AllGoodKept(s: State, t: State)
    requires AllGood(s) && t.evals == s.evals && t.locks == s.locks && t.accts == s.accts && s.now <= t.now
    ensures AllGood(t)
  {
    hide Good;
    forall a ensures Good(AcctOf(t, a), Holder(t, a), a, t.now) {
      assert Untouched(s, t, a);
      GoodByTick(AcctOf(s, a), Holder(s, a), a, s.now, t.now);
    }
  }

  lemma LinkedKept(s: State, t: State)
    requires Linked(s) && t.accts == s.accts && Events(t.pipe.wal) == Events(s.pipe.wal)
    ensures Linked(t)
  {
    hide LinkedTo;
    assert forall a :: AcctOf(t, a) == AcctOf(s, a);
    assert forall a :: LinkedTo(AcctOf(s, a), Events(s.pipe.wal), a);
  }

  lemma InvByRecv(s: State, r: AccountId, v: Receiver)
    requires Inv(s)
    ensures Inv(SetRecv(s, r, v))
  {
    hide Good;
    AllGoodKept(s, SetRecv(s, r, v));
    LinkedKept(s, SetRecv(s, r, v));
  }

  lemma BookedByLock(s: State, e: nat, tx: Tx)
    requires Booked(s)
    ensures Booked(OnTryLock(s, e, tx))
  {
    hide DistinctRules, Events, StatusOf;
  }

  lemma InvByTryLock(s: State, e: nat, tx: Tx)
    requires Inv(s)
    ensures Inv(OnTryLock(s, e, tx))
  {
    hide Good, Booked;
    LockFrame(s, e, tx);
    BookedByLock(s, e, tx);
    InvFrame(s, OnTryLock(s, e, tx), tx.from);
  }

  lemma InvByReadVolume(s: State, e: nat)
    requires Inv(s)
    ensures Inv(OnReadVolume(s, e))
  {
    hide Good;
    if PcOf(s, e).Locked? {
      var tx := PcOf(s, e).tx;
      HeldBy(s, e);
      HistoryBacked(s, tx.from);
      GoodByRead(AcctOf(s, tx.from), tx.from, tx, s.pipe.history, s.now);
      var (c, m) := OnRead(AcctOf(s, tx.from), tx, s.pipe.history, s.now);
      InvByMove(s, e, Metered(tx, m), c);
    }
  }

  lemma InvByCountSenders(s: State, e: nat)
    requires Inv(s)
    ensures Inv(OnCountSenders(s, e))
  {
    hide Good;
    if PcOf(s, e).Metered? {
      var pc := PcOf(s, e);
      HeldBy(s, e);
      InvByMove(s, e, Counted(pc.tx, pc.m, |RecvOf(s, pc.tx.to).senders|), AcctOf(s, pc.tx.from));
    }
  }

  lemma InvByFetchStats(s: State, e: nat)
    requires Inv(s)
    ensures Inv(OnFetchStats(s, e))
  {
    hide Good;
    if PcOf(s, e).Counted? {
      var pc := PcOf(s, e);
      HeldBy(s, e);
      InvByMove(s, e, Ready(pc.tx, pc.m, ContextFor(pc.tx, pc.m, pc.senders, s.pipe.history)), AcctOf(s, pc.tx.from));
    }
  }

  lemma InvByFailBeforeCommit(s: State, e: nat)
    requires Inv(s)
    ensures Inv(OnFailBeforeCommit(s, e))
  {
    hide Good;
    var pc := PcOf(s, e);
    if !pc.Idle? {
      HeldBy(s, e);
      if pc.Locked? {
        InvByLeave(s, e, AcctOf(s, pc.tx.from));
      } else if PhaseOf(pc).Reads? {
        GoodByClose(AcctOf(s, pc.tx.from), PhaseOf(pc), pc.tx.from, s.now);
        InvByLeave(s, e, OnClose(AcctOf(s, pc.tx.from), PhaseOf(pc)));
      }
    }
  }

  lemma InvByAddVolume(s: State, e: nat)
    requires Inv(s)
    ensures Inv(OnAddVolume(s, e))
  {
    hide Good;
    if PcOf(s, e).Saved? {
      var pc := PcOf(s, e);
      HeldBy(s, e);
      GoodByAdd(AcctOf(s, pc.tx.from), pc.tx.from, pc.tx, pc.m, s.now);
      InvByMove(s, e, Cached(pc.tx, pc.m, pc.ctx), OnAdd(AcctOf(s, pc.tx.from), pc.tx, s.now));
    }
  }

  lemma InvByAddVolumeFails(s: State, e: nat)
    requires Inv(s)
    ensures Inv(OnAddVolumeFails(s, e))
  {
    hide Good;
    if PcOf(s, e).Saved? {
      var pc := PcOf(s, e);
      HeldBy(s, e);
      GoodByDrop(AcctOf(s, pc.tx.from), pc.tx.from, pc.tx, pc.m, s.now);
      var next, c := Finished(pc.tx, pc.m, false), OnDrop(AcctOf(s, pc.tx.from), pc.tx);
      InvByMove(s, e, next, c);
      InvByRecv(Move(s, e, next, c), pc.tx.to, OnMissSender(RecvOf(s, pc.tx.to), pc.tx.from));
    }
  }

  lemma InvByAddSender(s: State, e: nat)
    requires Inv(s)
    ensures Inv(OnAddSenderStep(s, e)) && Inv(OnAddSenderFails(s, e))
  {
    hide Good;
    if PcOf(s, e).Cached? {
      var pc := PcOf(s, e);
      HeldBy(s, e);
      var next, c := Finished(pc.tx, pc.m, true), AcctOf(s, pc.tx.from);
      InvByMove(s, e, next, c);
      InvByRecv(Move(s, e, next, c), pc.tx.to, OnAddSender(RecvOf(s, pc.tx.to), pc.tx.from, s.now));
      InvByRecv(Move(s, e, next, c), pc.tx.to, OnMissSender(RecvOf(s, pc.tx.to), pc.tx.from));
    }
  }

  lemma InvByUnlock(s: State, e: nat)
    requires Inv(s)
    ensures Inv(OnUnlock(s, e))
  {
    hide Good;
    if PcOf(s, e).Finished? {
      var pc := PcOf(s, e);
      HeldBy(s, e);
      GoodByClose(AcctOf(s, pc.tx.from), PhaseOf(pc), pc.tx.from, s.now);
      InvByLeave(s, e, OnClose(AcctOf(s, pc.tx.from), PhaseOf(pc)));
    }
  }

  lemma InvByCrash(s: State, e: nat)
    requires Inv(s)
    ensures Inv(OnCrash(s, e))
  {
    hide Good;
    InvByFailBeforeCommit(s, e);
    InvByAddVolumeFails(s, e);
    InvByUnlock(OnAddVolumeFails(s, e), e);
    InvByAddSender(s, e);
    InvByUnlock(OnAddSenderFails(s, e), e);
    InvByUnlock(s, e);
  }

  lemma InvByAcct(s: State, a: AccountId, c: Acct)
    requires Inv(s) && SameStory(AcctOf(s, a), c)
    requires Good(c, Holder(s, a), a, s.now)
    ensures Inv(s.(accts := s.accts[a := c]))
  {
    hide Good;
    var t := s.(accts := s.accts[a := c]);
    assert forall b | b != a :: Untouched(s, t, b);
    InvFrame(s, t, a);
  }

  lemma InvByFlushVolume(s: State, a: AccountId, expired: bool)
    requires Inv(s)
    ensures Inv(OnFlushVolume(s, a, expired))
  {
    hide Good, Mutex, Informed, Stored;
    if AcctOf(s, a).window.Exists() {
      GoodByFlush(AcctOf(s, a), Holder(s, a), a, expired, s.now);
      InvByAcct(s, a, OnFlush(AcctOf(s, a), Holder(s, a), expired));
    }
  }

  lemma InvByTick(s: State, d: nat)
    requires Inv(s)
    ensures Inv(s.(now := s.now + d))
  {
    hide Good;
    AllGoodKept(s, s.(now := s.now + d));
    LinkedKept(s, s.(now := s.now + d));
  }

  lemma EventsByBackground(p: Pipe, action: PipeAction)
    requires !action.Save?
    ensures Events(PStep(p, action).wal) == Events(p.wal)
  {
    if action.Cleanup? {
      EventsOfCleanup(p, action.lag, action.now);
    }
  }

  lemma InvByBackground(s: State, action: PipeAction)
    requires Inv(s) && !action.Save?
    ensures Inv(s.(pipe := PStep(s.pipe, action)))
  {
    hide Good, PStep, Sound;
    var t := s.(pipe := PStep(s.pipe, action));
    EventsByBackground(s.pipe, action);
    SoundByStep(s.pipe, action);
    RowsByStep(s.pipe, action);
    AllGoodKept(s, t);
    LinkedKept(s, t);
    assert Booked(t);
  }

  // --- Commit -------------------------------------------------------------------------

  lemma DecisionGuards(tx: Tx, m: Metrics, ctx: AccountContext)
    requires ctx.volume24h == m.volume
    ensures Decide(tx, ctx) != REJECTED
    ensures Decide(tx, ctx) == APPROVED ==> Passes(tx, m) && ctx.uniqueCounterparties24h <= MAX_COUNTERPARTIES
  {
    ConfiguredDecision(CONFIGURED, tx, ctx);
  }

  function EventFor(tx: Tx, ctx: AccountContext, now: nat): Event {
    Event(tx, Decide(tx, ctx), Results(tx, ctx), now)
  }

  lemma TxsOfSnoc(es: seq<Event>, e: Event, a: AccountId)
    ensures TxsOf(es + [e], a) == TxsOf(es, a) + if e.tx.from == a then [e.tx] else []
    ensures VerdictsOf(es + [e], a) == VerdictsOf(es, a) + if e.tx.from == a then [VolumePassed(e)] else []
    ensures ApprovedOf(es + [e], a) ==
            ApprovedOf(es, a) + if e.tx.from == a && e.status == APPROVED then [e.tx] else []
  {
    hide VolumePassed;
    assert (es + [e])[..|es|] == es;
  }

  // The event carries the verdict of the volume rule on the volume that was read.
  lemma VolumeVerdict(tx: Tx, m: Metrics, ctx: AccountContext, now: nat)
    requires ctx.volume24h == m.volume
    ensures VolumePassed(EventFor(tx, ctx, now)) <==> Passes(tx, m)
  {
    hide StatusOf, Results;
    var e := EventFor(tx, ctx, now);
    ResultsAre(tx, ctx);
    assert e.results[1] == Evaluate(DailyVolumeLimit, tx, ctx);
  }

  lemma LinkedByCommit(s: State, tx: Tx, m: Metrics, ctx: AccountContext, t: State)
    requires Linked(s) && ctx.volume24h == m.volume
    requires Events(t.pipe.wal) == Events(s.pipe.wal) + [EventFor(tx, ctx, s.now)]
    requires AcctOf(t, tx.from) == OnCommit(AcctOf(s, tx.from), tx, m, Decide(tx, ctx))
    requires forall b | b != tx.from :: AcctOf(t, b) == AcctOf(s, b)
    ensures Linked(t)
  {
    hide TxsOf, VerdictsOf, ApprovedOf, VolumePassed, Events, Decide, Results, InTrail, Passes;
    var es := Events(s.pipe.wal);
    VolumeVerdict(tx, m, ctx, s.now);
    forall b ensures LinkedTo(AcctOf(t, b), Events(t.pipe.wal), b) {
      assert LinkedTo(AcctOf(s, b), es, b);
      TxsOfSnoc(es, EventFor(tx, ctx, s.now), b);
    }
  }

  lemma BookedByCommit(s: State, tx: Tx, ctx: AccountContext, t: State)
    requires Booked(s) && KeyOf(tx) in s.book && s.book[KeyOf(tx)] == tx && Decide(tx, ctx) != REJECTED
    requires Events(t.pipe.wal) == Events(s.pipe.wal) + [EventFor(tx, ctx, s.now)]
    requires t.book == s.book && t.now == s.now + 1
    requires forall e | e in t.evals && !t.evals[e].Idle? ::
               KeyOf(t.evals[e].tx) in t.book && t.book[KeyOf(t.evals[e].tx)] == t.evals[e].tx
    ensures Booked(t)
  {
    ResultsAre(tx, ctx);
    assert DistinctRules(EventFor(tx, ctx, s.now));
  }

  lemma AllGoodByCommit(s: State, e: nat, next: Pc)
    requires Inv(s) && PcOf(s, e).Ready?
    requires next == Saved(PcOf(s, e).tx, PcOf(s, e).m, PcOf(s, e).ctx)
    ensures var c := OnCommit(AcctOf(s, next.tx.from), next.tx, next.m, Decide(next.tx, next.ctx));
      AllGood(Move(s, e, next, c))
  {
    hide Decide, Stored, Mutex, Good, OnCommit;
    var tx, m, a := next.tx, next.m, next.tx.from;
    DecisionGuards(tx, m, next.ctx);
    HeldBy(s, e);
    GoodByCommit(AcctOf(s, a), a, tx, m, Decide(tx, next.ctx), s.now);
    var c := OnCommit(AcctOf(s, a), tx, m, Decide(tx, next.ctx));
    MoveFrame(s, e, next, c);
    var t := Move(s, e, next, c);
    forall b ensures Good(AcctOf(t, b), Holder(t, b), b, t.now) {
      assert b != a ==> Untouched(s, t, b);
    }
  }

  lemma PipeByCommit(p: Pipe, e: Event, at: int)
    requires Sound(p) && p.rows == RowsOf(Events(p.wal))
    ensures var q := OnSave(p, e, at);
      Sound(q) && q.rows == RowsOf(Events(q.wal)) && Events(q.wal) == Events(p.wal) + [e]
  {
    hide Sound, OnSave;
    EventsOfSave(p, e, at);
    SoundBySave(p, e, at);
    RowsByStep(p, Save(e, at));
  }

  lemma StoredByCommit(s: State, e: nat)
    requires Inv(s) && PcOf(s, e).Ready?
    ensures Stored(OnCommitStep(s, e))
  {
    hide Good, Sound, OnCommit, OnSave, Decide, Results, Linked, TxsOf, VerdictsOf, ApprovedOf, RowsOf, Events;
    var pc, t := PcOf(s, e), OnCommitStep(s, e);
    DecisionGuards(pc.tx, pc.m, pc.ctx);
    PipeByCommit(s.pipe, EventFor(pc.tx, pc.ctx, s.now), s.now);
    LinkedByCommit(s, pc.tx, pc.m, pc.ctx, t);
    BookedByCommit(s, pc.tx, pc.ctx, t);
  }

  lemma InvByCommit(s: State, e: nat)
    requires Inv(s)
    ensures Inv(OnCommitStep(s, e))
  {
    hide Good, Stored, OnCommit, OnSave, Results;
    var pc := PcOf(s, e);
    if pc.Ready? {
      var next := Saved(pc.tx, pc.m, pc.ctx);
      var c := OnCommit(AcctOf(s, pc.tx.from), pc.tx, pc.m, Decide(pc.tx, pc.ctx));
      DecisionGuards(pc.tx, pc.m, pc.ctx);
      StoredByCommit(s, e);
      AllGoodByCommit(s, e, next);
      MoveFrame(s, e, next, c);
      AllGoodKept(Move(s, e, next, c), OnCommitStep(s, e));
    }
  }

  // --- Every run -------------------------------------------------------------------------

  lemma InvByStep(s: State, action: Action)
    requires Inv(s)
    ensures Inv(Step(s, action))
  {
    hide Inv;
    match action
    case TryLock(e, tx) => InvByTryLock(s, e, tx);
    case ReadVolume(e) => InvByReadVolume(s, e);
    case CountSenders(e) => InvByCountSenders(s, e);
    case FetchStats(e) => InvByFetchStats(s, e);
    case Commit(e) => InvByCommit(s, e);
    case FailBeforeCommit(e) => InvByFailBeforeCommit(s, e);
    case AddVolume(e) => InvByAddVolume(s, e);
    case AddVolumeFails(e) => InvByAddVolumeFails(s, e);
    case AddSender(e) => InvByAddSender(s, e);
    case AddSenderFails(e) => InvByAddSender(s, e);
    case Unlock(e) => InvByUnlock(s, e);
    case Crash(e) => InvByCrash(s, e);
    case LoseVolume(a) => InvByFlushVolume(s, a, false);
    case ExpireVolume(a) => InvByFlushVolume(s, a, true);
    case LoseSenders(r) => InvByRecv(s, r, OnFlushSenders(RecvOf(s, r), false, UnsettledSenders(s.evals, r)));
    case ExpireSenders(r) => InvByRecv(s, r, OnFlushSenders(RecvOf(s, r), true, UnsettledSenders(s.evals, r)));
    case Tick(d) => InvByTick(s, d);
    case Background(pa) => if !pa.Save? { InvByBackground(s, pa); }
  }

  lemma InvBoot()
    ensures Inv(BOOT)
  {
    forall a ensures Good(AcctOf(BOOT, a), Holder(BOOT, a), a, BOOT.now) {
      GoodNew(a, 0);
    }
  }

  lemma {:induction false} EveryRun(actions: seq<Action>)
    ensures Inv(Run(actions))
  {
    hide Inv, Step;
    if actions == [] {
      InvBoot();
    } else {
      EveryRun(actions[..|actions| - 1]);
      InvByStep(Run(actions[..|actions| - 1]), actions[|actions| - 1]);
    }
  }
}
