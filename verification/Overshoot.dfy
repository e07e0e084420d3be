/** The counterparty limit is read outside any lock of the receiver. How far it can be overshot, and
    which senders the set is sure to hold. */
module Overshoot {
  import opened Domain
  import opened Account
  import opened Rules
  import opened History
  import opened Context
  import opened Pipeline
  import opened Receivers
  import opened Machine
  import opened Interleaving
  import opened Effects
  import opened Pacing

  type Evals = map<nat, Pc>

  // The evaluator has read a count that passes the rule and its own sender is not settled yet.
  predicate Passing(pc: Pc, r: AccountId) {
    Toward(pc, r) &&
    match pc
    case Counted(_, _, senders) => senders <= MAX_COUNTERPARTIES
    case Ready(_, _, ctx) => ctx.uniqueCounterparties24h <= MAX_COUNTERPARTIES
    case Saved(_, _, ctx) => ctx.uniqueCounterparties24h <= MAX_COUNTERPARTIES
    case Cached(_, _, ctx) => ctx.uniqueCounterparties24h <= MAX_COUNTERPARTIES
    case _ => false
  }

  function InFlight(evals: Evals, r: AccountId): set<nat> { set e | e in evals && Toward(evals[e], r) }

  function PassingIds(evals: Evals, r: AccountId): set<nat> { set e | e in evals && Passing(evals[e], r) }

  function PassingSenders(evals: Evals, r: AccountId): set<AccountId> {
    set e | e in evals && Passing(evals[e], r) :: evals[e].tx.from
  }

  // Of the approved senders `who`, those not in the set are in `out` or still to be added; with the
  // evaluators about to pass they exceed the limit by at most `cap` and those in `out`.
  ghost predicate Over(
    evals: Evals, r: AccountId, senders: set<AccountId>, who: set<AccountId>, out: set<AccountId>, cap: nat)
  {
    && who <= senders + out + UnsettledSenders(evals, r)
    && |who + PassingSenders(evals, r)| <= MAX_COUNTERPARTIES + cap + |out|
  }

  // The bound over the whole run, the bound over the recent senders, and what makes them recent.
  ghost predicate Capped(evals: Evals, r: AccountId, v: Receiver, now: int, cap: nat) {
    && Over(evals, r, v.senders, v.approved, v.missing, cap)
    && Over(evals, r, v.senders, v.recent, v.failed, cap)
    && Remembers(v, now) && Accounted(v, UnsettledSenders(evals, r))
  }

  // --- Counting ------------------------------------------------------------------

  lemma Subset<T>(a: set<T>, b: set<T>)
    requires a <= b
    ensures |a| <= |b|
  {
    assert b == a + (b - a);
  }

  function Image(ids: set<nat>, f: map<nat, AccountId>): set<AccountId>
    requires ids <= f.Keys
  {
    set e | e in ids :: f[e]
  }

  lemma {:induction false} ImageSmaller(ids: set<nat>, f: map<nat, AccountId>)
    requires ids <= f.Keys
    ensures |Image(ids, f)| <= |ids|
  {
    if e :| e in ids {
      ImageSmaller(ids - {e}, f);
      assert Image(ids, f) == Image(ids - {e}, f) + {f[e]};
    } else {
      assert Image(ids, f) == {};
    }
  }

  lemma FewPassing(evals: Evals, r: AccountId, cap: nat)
    requires |InFlight(evals, r)| <= cap
    ensures |PassingSenders(evals, r)| <= cap
  {
    var ids := PassingIds(evals, r);
    var f := map e | e in ids :: evals[e].tx.from;
    ImageSmaller(ids, f);
    forall x | x in PassingSenders(evals, r) ensures x in Image(ids, f) {
      var e :| e in evals && Passing(evals[e], r) && evals[e].tx.from == x;
      assert e in ids && f[e] == x;
    }
    Subset(PassingSenders(evals, r), Image(ids, f));
    Subset(ids, InFlight(evals, r));
  }

  lemma UnionSize<T>(a: set<T>, b: set<T>)
    ensures |a + b| <= |a| + |b|
  {
    assert a + b == a + (b - a);
    Subset(b - a, b);
  }

  // --- One evaluator's step --------------------------------------------------------

  lemma SendersAfter(evals: Evals, e: nat, pc: Pc, r: AccountId)
    requires e in evals && !evals[e].Idle?
    requires pc.Idle? || pc.tx == evals[e].tx
    ensures var x, next := evals[e].tx.from, evals[e := pc];
      && PassingSenders(next, r) <= PassingSenders(evals, r) + (if Passing(pc, r) then {x} else {})
      && UnsettledSenders(evals, r) <= UnsettledSenders(next, r) + (if Unsettled(evals[e], r) then {x} else {})
      && (Passing(evals[e], r) ==> x in PassingSenders(evals, r))
      && (Unsettled(pc, r) ==> x in UnsettledSenders(next, r))
  {
    var x, next := evals[e].tx.from, evals[e := pc];
    assert next[e] == pc && e in next;
    forall y | y in UnsettledSenders(evals, r)
      ensures y in UnsettledSenders(next, r) + (if Unsettled(evals[e], r) then {x} else {})
    {
      var d :| d in evals && Unsettled(evals[d], r) && evals[d].tx.from == y;
      assert d != e ==> d in next && next[d] == evals[d];
    }
    forall y | y in PassingSenders(next, r)
      ensures y in PassingSenders(evals, r) + (if Passing(pc, r) then {x} else {})
    {
      var d :| d in next && Passing(next[d], r) && next[d].tx.from == y;
      assert d != e ==> d in evals && next[d] == evals[d];
    }
  }

  // A new pass is granted only on a count within the limit; everyone approved is then in the set, known
  // to be out of it, or among the passing evaluators.
  lemma OverByCount(
    evals: Evals, next: Evals, r: AccountId,
    senders: set<AccountId>, who: set<AccountId>, out: set<AccountId>, cap: nat)
    requires Over(evals, r, senders, who, out, cap) && |InFlight(next, r)| <= cap
    requires UnsettledSenders(evals, r) <= UnsettledSenders(next, r) <= PassingSenders(next, r)
    requires |senders| <= MAX_COUNTERPARTIES
    ensures Over(next, r, senders, who, out, cap)
  {
    FewPassing(next, r, cap);
    var all := senders + out + PassingSenders(next, r);
    Subset(who + PassingSenders(next, r), all);
    UnionSize(senders + out, PassingSenders(next, r));
    UnionSize(senders, out);
  }

  lemma UnsettledPass(evals: Evals, r: AccountId)
    ensures UnsettledSenders(evals, r) <= PassingSenders(evals, r)
  {
  }

  // What one action can do to a receiver's record.
  datatype Touch =
    | Nothing
    | Added(x: AccountId)
    | Missed(x: AccountId)
    | Approving(x: AccountId)
    | Flushed(expired: bool, unsettled: set<AccountId>)

  function Apply(v: Receiver, touch: Touch, now: int): Receiver {
    match touch
    case Nothing => v
    case Added(x) => OnAddSender(v, x, now)
    case Missed(x) => OnMissSender(v, x)
    case Approving(x) => OnApprove(v, x, now)
    case Flushed(expired, unsettled) => OnFlushSenders(v, expired, unsettled)
  }

  lemma UnsettledIsPassing(pc: Pc, r: AccountId)
    ensures Unsettled(pc, r) ==> Passing(pc, r)
  {
  }

  // A step of evaluator `e` to `pc` that grants no new pass and settles its own sender if it must.
  predicate Settles(evals: Evals, e: nat, pc: Pc, r: AccountId, touch: Touch)
    requires e in evals && !evals[e].Idle?
  {
    && !touch.Flushed? && (!touch.Nothing? ==> touch.x == evals[e].tx.from)
    && (Passing(pc, r) ==> Passing(evals[e], r))
    && (touch.Approving? ==> Unsettled(pc, r))
    && (Unsettled(evals[e], r) && !Unsettled(pc, r) ==> touch.Added? || touch.Missed?)
  }

  lemma OverByProgress(
    evals: Evals, e: nat, pc: Pc, r: AccountId,
    senders: set<AccountId>, who: set<AccountId>, out: set<AccountId>,
    senders': set<AccountId>, who': set<AccountId>, out': set<AccountId>, cap: nat)
    requires Over(evals, r, senders, who, out, cap) && e in evals && !evals[e].Idle?
    requires pc.Idle? || pc.tx == evals[e].tx
    requires Passing(pc, r) ==> Passing(evals[e], r)
    requires senders <= senders' && out <= out'
    requires Unsettled(evals[e], r) && !Unsettled(pc, r) ==> evals[e].tx.from in senders' + out'
    requires who' == who || (who' == who + {evals[e].tx.from} && Unsettled(pc, r))
    ensures Over(evals[e := pc], r, senders', who', out', cap)
  {
    hide Passing, Unsettled, UnsettledSenders, PassingSenders;
    SendersAfter(evals, e, pc, r);
    UnsettledIsPassing(pc, r);
    var next := evals[e := pc];
    Subset(who' + PassingSenders(next, r), who + PassingSenders(evals, r));
    Subset(out, out');
  }

  lemma RecordByProgress(evals: Evals, e: nat, pc: Pc, r: AccountId, v: Receiver, touch: Touch, now: int)
    requires Remembers(v, now) && Accounted(v, UnsettledSenders(evals, r)) && e in evals && !evals[e].Idle?
    requires (pc.Idle? || pc.tx == evals[e].tx) && Settles(evals, e, pc, r, touch)
    ensures Remembers(Apply(v, touch, now), now)
    ensures Accounted(Apply(v, touch, now), UnsettledSenders(evals[e := pc], r))
  {
    hide Passing, Unsettled, UnsettledSenders, PassingSenders;
    SendersAfter(evals, e, pc, r);
  }

  lemma CappedByProgress(evals: Evals, e: nat, pc: Pc, r: AccountId, v: Receiver, touch: Touch, now: int, cap: nat)
    requires Capped(evals, r, v, now, cap) && e in evals && !evals[e].Idle?
    requires (pc.Idle? || pc.tx == evals[e].tx) && Settles(evals, e, pc, r, touch)
    ensures Capped(evals[e := pc], r, Apply(v, touch, now), now, cap)
  {
    hide Over, Remembers, Accounted, Passing, Unsettled;
    var w := Apply(v, touch, now);
    OverByProgress(evals, e, pc, r, v.senders, v.approved, v.missing, w.senders, w.approved, w.missing, cap);
    OverByProgress(evals, e, pc, r, v.senders, v.recent, v.failed, w.senders, w.recent, w.failed, cap);
    RecordByProgress(evals, e, pc, r, v, touch, now);
  }

  lemma CappedByCount(evals: Evals, e: nat, pc: Pc, r: AccountId, v: Receiver, now: int, cap: nat)
    requires Capped(evals, r, v, now, cap) && e in evals && !evals[e].Idle? && !pc.Idle? && pc.tx == evals[e].tx
    requires |InFlight(evals[e := pc], r)| <= cap && |v.senders| <= MAX_COUNTERPARTIES
    requires !Unsettled(evals[e], r)
    ensures Capped(evals[e := pc], r, v, now, cap)
  {
    hide Over, InFlight, Unsettled, UnsettledSenders, PassingSenders;
    var next := evals[e := pc];
    SendersAfter(evals, e, pc, r);
    UnsettledPass(next, r);
    OverByCount(evals, next, r, v.senders, v.approved, v.missing, cap);
    OverByCount(evals, next, r, v.senders, v.recent, v.failed, cap);
  }

  lemma CappedByFlush(evals: Evals, r: AccountId, v: Receiver, expired: bool, now: int, cap: nat)
    requires Capped(evals, r, v, now, cap) && Covers(v, now) && (expired ==> v.deadline <= now)
    ensures Capped(evals, r, OnFlushSenders(v, expired, UnsettledSenders(evals, r)), now, cap)
  {
    hide UnsettledSenders, PassingSenders;
    var unsettled, passing := UnsettledSenders(evals, r), PassingSenders(evals, r);
    var w := OnFlushSenders(v, expired, unsettled);
    Subset(v.missing, w.missing);
    Subset(v.failed, w.failed);
    Subset(w.recent + passing, v.recent + passing);
    if expired {
      RemembersAfterExpiry(v, now, unsettled);
    }
  }

  lemma LockKeepsSenders(evals: Evals, e: nat, tx: Tx, r: AccountId)
    requires e in evals ==> evals[e].Idle?
    ensures UnsettledSenders(evals[e := Locked(tx)], r) == UnsettledSenders(evals, r)
    ensures PassingSenders(evals[e := Locked(tx)], r) == PassingSenders(evals, r)
  {
    var next := evals[e := Locked(tx)];
    forall y | y in UnsettledSenders(evals, r) ensures y in UnsettledSenders(next, r) {
      var d :| d in evals && Unsettled(evals[d], r) && evals[d].tx.from == y;
      assert d in next && next[d] == evals[d];
    }
    forall y | y in PassingSenders(evals, r) ensures y in PassingSenders(next, r) {
      var d :| d in evals && Passing(evals[d], r) && evals[d].tx.from == y;
      assert d in next && next[d] == evals[d];
    }
  }

  // --- What each action does to the record ---------------------------------------------

  function TouchOf(s: State, action: Action, r: AccountId): Touch {
    match action
    case Commit(e) =>
      var pc := PcOf(s, e);
      if pc.Ready? && pc.tx.to == r && Decide(pc.tx, pc.ctx) == APPROVED then Approving(pc.tx.from) else Nothing
    case AddVolumeFails(e) =>
      var pc := PcOf(s, e); if pc.Saved? && pc.tx.to == r then Missed(pc.tx.from) else Nothing
    case AddSender(e) =>
      var pc := PcOf(s, e); if pc.Cached? && pc.tx.to == r then Added(pc.tx.from) else Nothing
    case AddSenderFails(e) =>
      var pc := PcOf(s, e); if pc.Cached? && pc.tx.to == r then Missed(pc.tx.from) else Nothing
    case Crash(e) =>
      var pc := PcOf(s, e); if (pc.Saved? || pc.Cached?) && pc.tx.to == r then Missed(pc.tx.from) else Nothing
    case LoseSenders(x) => if x == r then Flushed(false, UnsettledSenders(s.evals, r)) else Nothing
    case ExpireSenders(x) =>
      if x == r && RecvOf(s, r).deadline <= s.now then Flushed(true, UnsettledSenders(s.evals, r)) else Nothing
    case _ => Nothing
  }

  lemma RecvsUntouched(s: State, e: nat)
    ensures OnReadVolume(s, e).recvs == OnCountSenders(s, e).recvs == OnFetchStats(s, e).recvs == s.recvs
    ensures OnFailBeforeCommit(s, e).recvs == OnAddVolume(s, e).recvs == OnUnlock(s, e).recvs == s.recvs
  {
  }

  lemma RecvByMiss(s: State, e: nat, r: AccountId)
    ensures var pc, v := PcOf(s, e), RecvOf(s, r);
      && (pc.Saved? ==> RecvOf(OnAddVolumeFails(s, e), r) == if pc.tx.to == r then OnMissSender(v, pc.tx.from) else v)
      && (pc.Cached? ==> RecvOf(OnAddSenderFails(s, e), r) == if pc.tx.to == r then OnMissSender(v, pc.tx.from) else v)
  {
    hide OnDrop, OnMissSender;
  }

  lemma RecvByCrash(s: State, e: nat, r: AccountId)
    ensures RecvOf(OnCrash(s, e), r) == Apply(RecvOf(s, r), TouchOf(s, Crash(e), r), s.now)
  {
    hide OnFailBeforeCommit, OnUnlock, OnAddVolumeFails, OnAddSenderFails, OnMissSender;
    RecvsUntouched(s, e);
    RecvsUntouched(OnAddVolumeFails(s, e), e);
    RecvsUntouched(OnAddSenderFails(s, e), e);
    RecvByMiss(s, e, r);
  }

  lemma RecvByCommit(s: State, e: nat, r: AccountId)
    ensures RecvOf(OnCommitStep(s, e), r) == Apply(RecvOf(s, r), TouchOf(s, Commit(e), r), s.now)
  {
    hide OnCommit, OnSave, Decide, Results, OnApprove;
  }

  lemma RecvByAddSender(s: State, e: nat, r: AccountId)
    ensures RecvOf(OnAddSenderStep(s, e), r) == Apply(RecvOf(s, r), TouchOf(s, AddSender(e), r), s.now)
  {
    hide OnAddSender;
  }

  lemma RecvByFlush(s: State, x: AccountId, r: AccountId)
    ensures RecvOf(OnFlushSendersStep(s, x, false), r) == Apply(RecvOf(s, r), TouchOf(s, LoseSenders(x), r), s.now)
    ensures RecvOf(OnFlushSendersStep(s, x, true), r) == Apply(RecvOf(s, r), TouchOf(s, ExpireSenders(x), r), s.now)
  {
    hide OnFlushSenders, UnsettledSenders;
  }

  lemma RecvByFailedWrite(s: State, e: nat, r: AccountId)
    ensures RecvOf(OnAddVolumeFails(s, e), r) == Apply(RecvOf(s, r), TouchOf(s, AddVolumeFails(e), r), s.now)
    ensures RecvOf(OnAddSenderFails(s, e), r) == Apply(RecvOf(s, r), TouchOf(s, AddSenderFails(e), r), s.now)
  {
    hide OnDrop, OnMissSender;
    RecvByMiss(s, e, r);
  }

  lemma RecvByOther(s: State, action: Action, r: AccountId)
    requires !action.Commit? && !action.AddVolumeFails? && !action.AddSender? && !action.AddSenderFails?
    requires !action.LoseSenders? && !action.ExpireSenders? && !action.Crash?
    ensures RecvOf(Step(s, action), r) == RecvOf(s, r)
  {
    hide OnReadVolume, OnCountSenders, OnFetchStats, OnFailBeforeCommit, OnAddVolume, OnUnlock, PStep, OnFlush;
    if action.ReadVolume? || action.CountSenders? || action.FetchStats? || action.FailBeforeCommit?
       || action.AddVolume? || action.Unlock? {
      RecvsUntouched(s, action.e);
    }
  }

  lemma RecvByStep(s: State, action: Action, r: AccountId)
    ensures RecvOf(Step(s, action), r) == Apply(RecvOf(s, r), TouchOf(s, action, r), s.now)
  {
    hide OnCrash, OnCommitStep, OnAddVolumeFails, OnAddSenderStep, OnAddSenderFails, OnFlushSendersStep, RecvOf;
    match action
    case Commit(e) => RecvByCommit(s, e, r);
    case AddVolumeFails(e) => RecvByFailedWrite(s, e, r);
    case AddSender(e) => RecvByAddSender(s, e, r);
    case AddSenderFails(e) => RecvByFailedWrite(s, e, r);
    case Crash(e) => RecvByCrash(s, e, r);
    case LoseSenders(x) => RecvByFlush(s, x, r);
    case ExpireSenders(x) => RecvByFlush(s, x, r);
    case _ =>
      hide Step;
      RecvByOther(s, action, r);
  }

  // --- The machine's steps -----------------------------------------------------------

  ghost predicate CappedIn(s: State, r: AccountId, cap: nat) { Capped(s.evals, r, RecvOf(s, r), s.now, cap) }

  // An evaluator's step, given where it leads and what it does to the record.
  lemma CappedByEvaluator(s: State, action: Action, t: State, e: nat, r: AccountId, cap: nat)
    requires CappedIn(s, r, cap) && t == Step(s, action) && e in s.evals && !s.evals[e].Idle?
    requires e in t.evals && t.evals == s.evals[e := t.evals[e]] && s.now <= t.now
    requires t.evals[e].Idle? || t.evals[e].tx == s.evals[e].tx
    requires Settles(s.evals, e, t.evals[e], r, TouchOf(s, action, r))
    ensures CappedIn(t, r, cap)
  {
    hide Capped, Step, TouchOf, Apply, Settles, RecvOf;
    RecvByStep(s, action, r);
    CappedByProgress(s.evals, e, t.evals[e], r, RecvOf(s, r), TouchOf(s, action, r), s.now, cap);
    CappedLater(t.evals, r, RecvOf(t, r), s.now, t.now, cap);
  }

  lemma CappedLater(evals: Evals, r: AccountId, v: Receiver, now: int, later: int, cap: nat)
    requires Capped(evals, r, v, now, cap) && now <= later
    ensures Capped(evals, r, v, later, cap)
  {
    hide Over, Accounted;
  }

  lemma CappedByCountSenders(s: State, e: nat, r: AccountId, cap: nat)
    requires CappedIn(s, r, cap) && |InFlight(OnCountSenders(s, e).evals, r)| <= cap
    ensures CappedIn(OnCountSenders(s, e), r, cap)
  {
    hide Capped, InFlight;
    var pc, t := PcOf(s, e), OnCountSenders(s, e);
    if pc.Metered? {
      if Passing(t.evals[e], r) {
        CappedByCount(s.evals, e, t.evals[e], r, RecvOf(s, r), s.now, cap);
      } else {
        CappedByProgress(s.evals, e, t.evals[e], r, RecvOf(s, r), Nothing, s.now, cap);
      }
    }
  }

  lemma CommittedCounts(tx: Tx, ctx: AccountContext)
    ensures Decide(tx, ctx) != REJECTED
    ensures Decide(tx, ctx) == APPROVED ==> ctx.uniqueCounterparties24h <= MAX_COUNTERPARTIES
  {
    ConfiguredDecision(CONFIGURED, tx, ctx);
  }

  lemma CappedByCommit(s: State, e: nat, r: AccountId, cap: nat)
    requires CappedIn(s, r, cap)
    ensures CappedIn(OnCommitStep(s, e), r, cap)
  {
    hide OnCommit, OnSave, CappedIn, Decide, Results;
    var pc := PcOf(s, e);
    if pc.Ready? {
      CommittedCounts(pc.tx, pc.ctx);
      CappedByEvaluator(s, Commit(e), OnCommitStep(s, e), e, r, cap);
    }
  }

  lemma CappedByReading(s: State, e: nat, r: AccountId, cap: nat)
    requires CappedIn(s, r, cap)
    ensures CappedIn(OnReadVolume(s, e), r, cap) && CappedIn(OnFetchStats(s, e), r, cap)
  {
    hide CappedIn, OnRead, ContextOf, FetchGroupedStats;
    var pc := PcOf(s, e);
    if pc.Locked? {
      CappedByEvaluator(s, ReadVolume(e), OnReadVolume(s, e), e, r, cap);
    } else if pc.Counted? {
      ContextCounts(pc.tx, pc.m, pc.senders, s.pipe.history);
      hide ContextFor;
      CappedByEvaluator(s, FetchStats(e), OnFetchStats(s, e), e, r, cap);
    }
  }

  lemma ContextCounts(tx: Tx, m: Metrics, senders: nat, h: Table)
    ensures ContextFor(tx, m, senders, h).uniqueCounterparties24h == senders
  {
  }

  lemma CappedByEnd(s: State, e: nat, r: AccountId, cap: nat)
    requires CappedIn(s, r, cap)
    ensures CappedIn(OnFailBeforeCommit(s, e), r, cap) && CappedIn(OnUnlock(s, e), r, cap)
  {
    hide CappedIn, OnClose;
    var pc := PcOf(s, e);
    if pc.Locked? || PhaseOf(pc).Reads? {
      CappedByEvaluator(s, FailBeforeCommit(e), OnFailBeforeCommit(s, e), e, r, cap);
    } else if pc.Finished? {
      CappedByEvaluator(s, Unlock(e), OnUnlock(s, e), e, r, cap);
    }
  }

  lemma CappedByVolume(s: State, e: nat, r: AccountId, cap: nat)
    requires CappedIn(s, r, cap)
    ensures CappedIn(OnAddVolume(s, e), r, cap) && CappedIn(OnAddVolumeFails(s, e), r, cap)
  {
    hide CappedIn, OnAdd, OnDrop, OnMissSender;
    if PcOf(s, e).Saved? {
      CappedByEvaluator(s, AddVolume(e), OnAddVolume(s, e), e, r, cap);
      CappedByEvaluator(s, AddVolumeFails(e), OnAddVolumeFails(s, e), e, r, cap);
    }
  }

  lemma CappedBySender(s: State, e: nat, r: AccountId, cap: nat)
    requires CappedIn(s, r, cap)
    ensures CappedIn(OnAddSenderStep(s, e), r, cap) && CappedIn(OnAddSenderFails(s, e), r, cap)
  {
    hide CappedIn, OnAddSender, OnMissSender;
    if PcOf(s, e).Cached? {
      CappedByEvaluator(s, AddSender(e), OnAddSenderStep(s, e), e, r, cap);
      CappedByEvaluator(s, AddSenderFails(e), OnAddSenderFails(s, e), e, r, cap);
    }
  }

  lemma CappedByCrash(s: State, e: nat, r: AccountId, cap: nat)
    requires CappedIn(s, r, cap)
    ensures CappedIn(OnCrash(s, e), r, cap)
  {
    hide CappedIn, OnFailBeforeCommit, OnUnlock, OnAddVolumeFails, OnAddSenderFails;
    CappedByEnd(s, e, r, cap);
    CappedByVolume(s, e, r, cap);
    CappedByEnd(OnAddVolumeFails(s, e), e, r, cap);
    CappedBySender(s, e, r, cap);
    CappedByEnd(OnAddSenderFails(s, e), e, r, cap);
  }

  lemma CappedByTryLock(s: State, e: nat, tx: Tx, r: AccountId, cap: nat)
    requires CappedIn(s, r, cap)
    ensures CappedIn(OnTryLock(s, e, tx), r, cap)
  {
    hide UnsettledSenders, PassingSenders, Remembers, Accounted;
    if PcOf(s, e).Idle? {
      LockKeepsSenders(s.evals, e, tx, r);
    }
  }

  lemma CappedByFlushSenders(s: State, x: AccountId, r: AccountId, expired: bool, cap: nat)
    requires CappedIn(s, r, cap) && Covers(RecvOf(s, r), s.now)
    ensures CappedIn(OnFlushSendersStep(s, x, expired), r, cap)
  {
    hide Capped, Covers, OnFlushSenders, UnsettledSenders;
    if x == r && (expired ==> RecvOf(s, r).deadline <= s.now) {
      CappedByFlush(s.evals, r, RecvOf(s, r), expired, s.now, cap);
    }
  }

  lemma CappedByOther(s: State, t: State, r: AccountId, cap: nat)
    requires CappedIn(s, r, cap) && t.evals == s.evals && t.recvs == s.recvs && s.now <= t.now
    ensures CappedIn(t, r, cap)
  {
    hide Capped;
    CappedLater(s.evals, r, RecvOf(s, r), s.now, t.now, cap);
  }

  lemma CappedByStep(s: State, action: Action, r: AccountId, cap: nat)
    requires CappedIn(s, r, cap) && Covers(RecvOf(s, r), s.now)
    requires |InFlight(Step(s, action).evals, r)| <= cap
    ensures CappedIn(Step(s, action), r, cap)
  {
    hide CappedIn, Covers, InFlight, OnTryLock, OnReadVolume, OnCountSenders, OnFetchStats, OnCommitStep,
      OnFailBeforeCommit, OnAddVolume, OnAddVolumeFails, OnAddSenderStep, OnAddSenderFails, OnUnlock, OnCrash,
      OnFlush, OnFlushSendersStep, PStep;
    match action
    case TryLock(e, tx) => CappedByTryLock(s, e, tx, r, cap);
    case ReadVolume(e) => CappedByReading(s, e, r, cap);
    case CountSenders(e) => CappedByCountSenders(s, e, r, cap);
    case FetchStats(e) => CappedByReading(s, e, r, cap);
    case Commit(e) => CappedByCommit(s, e, r, cap);
    case FailBeforeCommit(e) => CappedByEnd(s, e, r, cap);
    case AddVolume(e) => CappedByVolume(s, e, r, cap);
    case AddVolumeFails(e) => CappedByVolume(s, e, r, cap);
    case AddSender(e) => CappedBySender(s, e, r, cap);
    case AddSenderFails(e) => CappedBySender(s, e, r, cap);
    case Unlock(e) => CappedByEnd(s, e, r, cap);
    case Crash(e) => CappedByCrash(s, e, r, cap);
    case LoseSenders(x) => CappedByFlushSenders(s, x, r, false, cap);
    case ExpireSenders(x) => CappedByFlushSenders(s, x, r, true, cap);
    case _ => CappedByOther(s, Step(s, action), r, cap);
  }

  // --- Every run ------------------------------------------------------------------------

  // At every point of the run at most `cap` evaluations toward the receiver are in flight.
  ghost predicate AtMostInFlight(actions: seq<Action>, r: AccountId, cap: nat) {
    forall n | 0 <= n <= |actions| :: |InFlight(Run(actions[..n]).evals, r)| <= cap
  }

  lemma CappedBoot(r: AccountId, cap: nat)
    ensures CappedIn(BOOT, r, cap)
  {
    assert PassingSenders(BOOT.evals, r) == {};
  }

  lemma {:induction false} CappedInRun(actions: seq<Action>, r: AccountId, cap: nat)
    requires AtMostInFlight(actions, r, cap)
    ensures CappedIn(Run(actions), r, cap)
  {
    hide Step, InFlight, CappedIn;
    if actions == [] {
      CappedBoot(r, cap);
    } else {
      var n := |actions| - 1;
      forall k | 0 <= k <= n ensures |InFlight(Run(actions[..n][..k]).evals, r)| <= cap {
        assert actions[..n][..k] == actions[..k];
      }
      CappedInRun(actions[..n], r, cap);
      ReceiverInRun(actions[..n], r);
      assert actions[..n + 1] == actions;
      CappedByStep(Run(actions[..n]), actions[n], r, cap);
    }
  }

  // The senders with an approved transaction toward the receiver among the committed events.
  function ApprovedSenders(es: seq<Event>, r: AccountId): set<AccountId> {
    set e | e in es && e.status == APPROVED && e.tx.to == r :: e.tx.from
  }

  // Those approved within the last 24 hours of the clock.
  function RecentSenders(es: seq<Event>, r: AccountId, now: int): set<AccountId> {
    set e | e in es && e.status == APPROVED && e.tx.to == r && now < e.evaluatedAt + DAY :: e.tx.from
  }

  ghost predicate Remembered(v: Receiver, es: seq<Event>, r: AccountId) {
    && v.approved == ApprovedSenders(es, r)
    && forall e | e in es && e.status == APPROVED && e.tx.to == r ::
         e.tx.from in v.approvedAt && e.evaluatedAt <= v.approvedAt[e.tx.from]
  }

  ghost predicate RememberedIn(s: State, r: AccountId) { Remembered(RecvOf(s, r), Events(s.pipe.wal), r) }

  lemma ApprovedSnoc(es: seq<Event>, event: Event, r: AccountId)
    ensures ApprovedSenders(es + [event], r) ==
            ApprovedSenders(es, r) + if event.status == APPROVED && event.tx.to == r then {event.tx.from} else {}
  {
    var added: set<AccountId> := if event.status == APPROVED && event.tx.to == r then {event.tx.from} else {};
    forall y | y in ApprovedSenders(es, r) + added ensures y in ApprovedSenders(es + [event], r) {
      if y in ApprovedSenders(es, r) {
        var f :| f in es && f.status == APPROVED && f.tx.to == r && f.tx.from == y;
        assert f in es + [event];
      } else {
        assert event in es + [event];
      }
    }
  }

  lemma RememberedByCommit(s: State, e: nat, r: AccountId)
    requires RememberedIn(s, r) && Booked(s)
    ensures RememberedIn(OnCommitStep(s, e), r)
  {
    hide OnCommit, OnSave, Results, ApprovedSenders, DistinctRules;
    var pc := PcOf(s, e);
    if pc.Ready? {
      var event := EventFor(pc.tx, pc.ctx, s.now);
      EventsOfSave(s.pipe, event, s.now);
      ApprovedSnoc(Events(s.pipe.wal), event, r);
    }
  }

  lemma EventsByStep(s: State, action: Action)
    requires !action.Commit?
    ensures Events(Step(s, action).pipe.wal) == Events(s.pipe.wal)
  {
    hide OnRead, PStep, ContextFor, OnAdd, OnDrop, OnClose, OnFlush, OnFlushSenders, UnsettledSenders, Events;
    if action.Background? && !action.action.Save? {
      EventsByBackground(s.pipe, action.action);
    }
  }

  lemma RememberedByStep(s: State, action: Action, r: AccountId)
    requires RememberedIn(s, r) && Booked(s)
    ensures RememberedIn(Step(s, action), r)
  {
    hide Step, OnCommitStep, Booked;
    if action.Commit? {
      RememberedByCommit(s, action.e, r);
      assert Step(s, action) == OnCommitStep(s, action.e) by { CommitIs(s, action.e); }
    } else {
      EventsByStep(s, action);
      RecvByStep(s, action, r);
    }
  }

  lemma CommitIs(s: State, e: nat)
    ensures Step(s, Commit(e)) == OnCommitStep(s, e)
  {
  }

  lemma CoversByTouch(v: Receiver, touch: Touch, now: int, later: int)
    requires Covers(v, now) && now <= later && (touch.Flushed? && touch.expired ==> v.deadline <= now)
    ensures Covers(Apply(v, touch, now), later)
  {
  }

  lemma CoversByStep(s: State, action: Action, r: AccountId)
    requires Covers(RecvOf(s, r), s.now)
    ensures Covers(RecvOf(Step(s, action), r), Step(s, action).now)
  {
    hide Step, Covers, UnsettledSenders;
    RecvByStep(s, action, r);
    ClockByStep(s, action);
    CoversByTouch(RecvOf(s, r), TouchOf(s, action, r), s.now, Step(s, action).now);
  }

  lemma {:induction false} ReceiverInRun(actions: seq<Action>, r: AccountId)
    ensures RememberedIn(Run(actions), r) && Covers(RecvOf(Run(actions), r), Run(actions).now)
  {
    hide Step, Covers, RememberedIn, Booked, Mutex, Informed, AllGood, Linked, Sound;
    if actions == [] {
      ReceiverBoot(r);
    } else {
      ReceiverInRun(actions[..|actions| - 1], r);
      EveryRun(actions[..|actions| - 1]);
      RememberedByStep(Run(actions[..|actions| - 1]), actions[|actions| - 1], r);
      CoversByStep(Run(actions[..|actions| - 1]), actions[|actions| - 1], r);
    }
  }

  lemma ReceiverBoot(r: AccountId)
    ensures RememberedIn(BOOT, r) && Covers(RecvOf(BOOT, r), BOOT.now)
  {
  }

  // The action adds sender `x` to the receiver's set.
  predicate Adds(s: State, action: Action, r: AccountId, x: AccountId) {
    action.AddSender? && PcOf(s, action.e).Cached? && PcOf(s, action.e).tx.to == r && PcOf(s, action.e).tx.from == x
  }

  lemma StaysByTouch(v: Receiver, touch: Touch, now: int, x: AccountId, until: int)
    requires x in v.senders && until <= v.deadline && now < until
    requires touch.Flushed? ==> touch.expired && v.deadline <= now
    requires until <= now + DAY
    ensures x in Apply(v, touch, now).senders && until <= Apply(v, touch, now).deadline
  {
  }

  lemma AddedByStep(s: State, action: Action, r: AccountId, x: AccountId)
    requires Adds(s, action, r, x)
    ensures var v := RecvOf(Step(s, action), r); x in v.senders && v.deadline == s.now + DAY
  {
    hide Step;
    RecvByStep(s, action, r);
  }

  // Until 24 hours after an add only a loss removes the sender: every later add renews the expiry for all.
  lemma {:induction false} StaysAdded(actions: seq<Action>, r: AccountId, x: AccountId, n: nat, k: nat)
    requires n < k <= |actions| && Adds(Run(actions[..n]), actions[n], r, x)
    requires forall m | n < m < k :: actions[m] != LoseSenders(r)
    requires Run(actions[..k]).now < Run(actions[..n]).now + DAY
    ensures var v := RecvOf(Run(actions[..k]), r);
      x in v.senders && Run(actions[..n]).now + DAY <= v.deadline
  {
    hide Step, Adds, UnsettledSenders;
    var s := Run(actions[..k - 1]);
    assert actions[..k][..k - 1] == actions[..k - 1];
    if k == n + 1 {
      AddedByStep(s, actions[n], r, x);
    } else {
      ClockByStep(s, actions[k - 1]);
      StaysAdded(actions, r, x, n, k - 1);
      RecvByStep(s, actions[k - 1], r);
      ClockInRun(actions[..k - 1], n);
      assert actions[..k - 1][..n] == actions[..n];
      StaysByTouch(RecvOf(s, r), TouchOf(s, actions[k - 1], r), s.now, x, Run(actions[..n]).now + DAY);
    }
  }

  // The held set always includes every sender added by an action less than 24 hours ago, unless the set has
  // since been lost to something other than expiry; so it does every sender of the record while it never was.
  lemma SenderCoverage(actions: seq<Action>, r: AccountId, x: AccountId)
    ensures var s := Run(actions); var v := RecvOf(s, r);
      && (forall n | 0 <= n < |actions| && Adds(Run(actions[..n]), actions[n], r, x)
            && (forall m | n < m < |actions| :: actions[m] != LoseSenders(r))
            && s.now < Run(actions[..n]).now + DAY :: x in v.senders)
      && (!v.dropped && x in v.lastAdd && s.now < v.lastAdd[x] + DAY ==> x in v.senders)
  {
    hide Run, Adds;
    ReceiverInRun(actions, r);
    assert actions[..|actions|] == actions;
    forall n | 0 <= n < |actions| && Adds(Run(actions[..n]), actions[n], r, x)
      && (forall m | n < m < |actions| :: actions[m] != LoseSenders(r))
      && Run(actions).now < Run(actions[..n]).now + DAY
      ensures x in RecvOf(Run(actions), r).senders
    {
      StaysAdded(actions, r, x, n, |actions|);
    }
  }

  // A run in which no sender write fails and no sender set is lost; sets may expire.
  predicate SendersReliable(actions: seq<Action>) {
    forall x | x in actions :: !x.AddVolumeFails? && !x.AddSenderFails? && !x.Crash? && !x.LoseSenders?
  }

  lemma {:induction false} NoSenderFails(actions: seq<Action>, r: AccountId)
    requires SendersReliable(actions)
    ensures RecvOf(Run(actions), r).failed == {}
    ensures (forall x | x in actions :: !x.ExpireSenders?) ==> RecvOf(Run(actions), r).missing == {}
  {
    hide Step, UnsettledSenders;
    if actions != [] {
      var n := |actions| - 1;
      NoSenderFails(actions[..n], r);
      RecvByStep(Run(actions[..n]), actions[n], r);
    }
  }

  // With at most `cap` evaluations in flight toward a receiver, at most 10 + cap distinct senders are
  // approved toward it within the last 24 hours, plus those whose write failed or whose set was lost;
  // and over the whole run at most 10 + cap, plus those its sender set failed to show for any reason.
  lemma BoundedOvershoot(actions: seq<Action>, r: AccountId, cap: nat)
    requires AtMostInFlight(actions, r, cap)
    ensures var s := Run(actions); var v := RecvOf(s, r); var log := Events(s.pipe.wal);
      && |RecentSenders(log, r, s.now)| <= 10 + cap + |v.failed|
      && |ApprovedSenders(log, r)| <= 10 + cap + |v.missing|
      && (SendersReliable(actions) ==> |RecentSenders(log, r, s.now)| <= 10 + cap)
      && (SendersReliable(actions) && (forall x | x in actions :: !x.ExpireSenders?) ==>
            |ApprovedSenders(log, r)| <= 10 + cap)
  {
    hide Run, AtMostInFlight, UnsettledSenders, PassingSenders, Accounted, Covers;
    CappedInRun(actions, r, cap);
    ReceiverInRun(actions, r);
    var s := Run(actions);
    var v, passing := RecvOf(s, r), PassingSenders(s.evals, r);
    Subset(v.approved, v.approved + passing);
    Subset(v.recent, v.recent + passing);
    Subset(RecentSenders(Events(s.pipe.wal), r, s.now), v.recent);
    if SendersReliable(actions) {
      NoSenderFails(actions, r);
    }
  }
}
