/** What one action of the machine does to one account, and what runs without certain actions leave alone. */
module Effects {
  import opened Domain
  import opened History
  import opened Window
  import opened Account
  import opened Context
  import opened Receivers
  import opened Pipeline
  import opened Machine

  // The account after the action.
  ghost function AcctAfter(s: State, action: Action, a: AccountId): Acct {
    var c := AcctOf(s, a);
    match action
    case ReadVolume(e) => if At(s, e, a) && PcOf(s, e).Locked? then
      OnRead(c, PcOf(s, e).tx, s.pipe.history, s.now).0 else c
    case Commit(e) => if At(s, e, a) && PcOf(s, e).Ready? then
      var pc := PcOf(s, e); OnCommit(c, pc.tx, pc.m, Decide(pc.tx, pc.ctx)) else c
    case FailBeforeCommit(e) => if At(s, e, a) && PhaseOf(PcOf(s, e)).Reads? then OnClose(c, PhaseOf(PcOf(s, e))) else c
    case AddVolume(e) => if At(s, e, a) && PcOf(s, e).Saved? then OnAdd(c, PcOf(s, e).tx, s.now) else c
    case AddVolumeFails(e) => if At(s, e, a) && PcOf(s, e).Saved? then OnDrop(c, PcOf(s, e).tx) else c
    case Unlock(e) => if At(s, e, a) && PcOf(s, e).Finished? then OnClose(c, PhaseOf(PcOf(s, e))) else c
    case Crash(e) => if At(s, e, a) then OnDeath(c, PcOf(s, e)) else c
    case LoseVolume(b) => if a == b && c.window.Exists() then OnFlush(c, Holder(s, a), false) else c
    case ExpireVolume(b) => if a == b && Expires(s, a) then OnFlush(c, Holder(s, a), true) else c
    case _ => c
  }

  // Evaluator `e` is at work for the account.
  predicate At(s: State, e: nat, a: AccountId) { !PcOf(s, e).Idle? && PcOf(s, e).tx.from == a }

  predicate Expires(s: State, a: AccountId) { AcctOf(s, a).window.Exists() && AcctOf(s, a).deadline <= s.now }

  function OnDeath(c: Acct, pc: Pc): Acct {
    match pc
    case Saved(tx, m, _) => OnClose(OnDrop(c, tx), Settled(tx, m, false))
    case Cached(tx, m, _) => OnClose(c, Settled(tx, m, true))
    case Finished(tx, m, added) => OnClose(c, Settled(tx, m, added))
    case Metered(tx, m) => OnClose(c, Reads(tx, m))
    case Counted(tx, m, _) => OnClose(c, Reads(tx, m))
    case Ready(tx, m, _) => OnClose(c, Reads(tx, m))
    case _ => c
  }

  lemma AcctByLeave(s: State, e: nat, b: AccountId, c: Acct, a: AccountId)
    ensures AcctOf(Leave(s, e, b, c), a) == if a == b then c else AcctOf(s, a)
  {
  }

  lemma AcctByReading(s: State, e: nat, a: AccountId)
    ensures AcctOf(OnReadVolume(s, e), a) == AcctAfter(s, ReadVolume(e), a)
    ensures AcctOf(OnCountSenders(s, e), a) == AcctOf(OnFetchStats(s, e), a) == AcctOf(s, a)
  {
    hide OnRead, ContextFor;
  }

  lemma AcctByAdding(s: State, e: nat, a: AccountId)
    ensures AcctOf(OnAddVolume(s, e), a) == AcctAfter(s, AddVolume(e), a)
  {
    hide OnAdd;
  }

  lemma AcctByFailing(s: State, e: nat, a: AccountId)
    ensures AcctOf(OnFailBeforeCommit(s, e), a) == AcctAfter(s, FailBeforeCommit(e), a)
  {
    hide OnClose, Leave;
    var pc := PcOf(s, e);
    if pc.Locked? {
      AcctByLeave(s, e, pc.tx.from, AcctOf(s, pc.tx.from), a);
    } else if PhaseOf(pc).Reads? {
      AcctByLeave(s, e, pc.tx.from, OnClose(AcctOf(s, pc.tx.from), PhaseOf(pc)), a);
    }
  }

  lemma AcctByUnlock(s: State, e: nat, a: AccountId)
    ensures AcctOf(OnUnlock(s, e), a) == AcctAfter(s, Unlock(e), a)
  {
    hide OnClose;
  }

  lemma AcctByCommit(s: State, e: nat, a: AccountId)
    ensures AcctOf(OnCommitStep(s, e), a) == AcctAfter(s, Commit(e), a)
  {
    hide OnCommit, OnSave, Decide, OnApprove;
  }

  lemma AcctByWrites(s: State, e: nat, a: AccountId)
    ensures AcctOf(OnAddVolumeFails(s, e), a) == AcctAfter(s, AddVolumeFails(e), a)
    ensures AcctOf(OnAddSenderStep(s, e), a) == AcctOf(OnAddSenderFails(s, e), a) == AcctOf(s, a)
  {
    hide OnDrop, OnAddSender, OnMissSender;
  }

  lemma WritesSettle(s: State, e: nat)
    ensures PcOf(s, e).Saved? ==>
              PcOf(OnAddVolumeFails(s, e), e) == Finished(PcOf(s, e).tx, PcOf(s, e).m, false)
    ensures PcOf(s, e).Cached? ==>
              PcOf(OnAddSenderFails(s, e), e) == Finished(PcOf(s, e).tx, PcOf(s, e).m, true)
  {
    hide OnDrop, OnMissSender;
  }

  lemma AcctByLateCrash(s: State, e: nat, a: AccountId)
    requires PcOf(s, e).Saved? || PcOf(s, e).Cached?
    ensures AcctOf(OnCrash(s, e), a) == AcctAfter(s, Crash(e), a)
  {
    hide OnClose, OnDrop, AcctOf, OnUnlock, OnAddVolumeFails, OnAddSenderFails;
    WritesSettle(s, e);
    AcctByWrites(s, e, a);
    if PcOf(s, e).Saved? {
      AcctByUnlock(OnAddVolumeFails(s, e), e, a);
    } else {
      AcctByUnlock(OnAddSenderFails(s, e), e, a);
    }
  }

  lemma AcctByCrash(s: State, e: nat, a: AccountId)
    ensures AcctOf(OnCrash(s, e), a) == AcctAfter(s, Crash(e), a)
  {
    if PcOf(s, e).Saved? || PcOf(s, e).Cached? {
      AcctByLateCrash(s, e, a);
    } else {
      hide OnClose, OnDrop, AcctOf, OnUnlock, OnFailBeforeCommit, OnAddVolumeFails, OnAddSenderFails;
      if PcOf(s, e).Finished? {
        AcctByUnlock(s, e, a);
      } else {
        AcctByFailing(s, e, a);
      }
    }
  }

  lemma AcctByStep(s: State, action: Action, a: AccountId)
    ensures AcctOf(Step(s, action), a) == AcctAfter(s, action, a)
  {
    hide AcctAfter, AcctOf, OnReadVolume, OnCountSenders, OnFetchStats, OnCommitStep, OnFailBeforeCommit, OnAddVolume,
      OnAddVolumeFails, OnAddSenderStep, OnAddSenderFails, OnUnlock, OnCrash;
    match action
    case ReadVolume(e) => AcctByReading(s, e, a);
    case CountSenders(e) => AcctByReading(s, e, a); Unmoved(s, action, a);
    case FetchStats(e) => AcctByReading(s, e, a); Unmoved(s, action, a);
    case Commit(e) => AcctByCommit(s, e, a);
    case FailBeforeCommit(e) => AcctByFailing(s, e, a);
    case AddVolume(e) => AcctByAdding(s, e, a);
    case AddVolumeFails(e) => AcctByWrites(s, e, a);
    case AddSender(e) => AcctByWrites(s, e, a); Unmoved(s, action, a);
    case AddSenderFails(e) => AcctByWrites(s, e, a); Unmoved(s, action, a);
    case Unlock(e) => AcctByUnlock(s, e, a);
    case Crash(e) => AcctByCrash(s, e, a);
    case LoseVolume(b) => AcctByFlush(s, b, a);
    case ExpireVolume(b) => AcctByFlush(s, b, a);
    case _ => AcctByRest(s, action, a);
  }

  lemma Unmoved(s: State, action: Action, a: AccountId)
    requires action.CountSenders? || action.FetchStats? || action.AddSender? || action.AddSenderFails?
    ensures AcctAfter(s, action, a) == AcctOf(s, a)
  {
  }

  lemma AcctByFlush(s: State, b: AccountId, a: AccountId)
    ensures AcctOf(OnFlushVolume(s, b, false), a) == AcctAfter(s, LoseVolume(b), a)
    ensures AcctOf(OnFlushVolume(s, b, true), a) == AcctAfter(s, ExpireVolume(b), a)
  {
    hide OnFlush, Holder;
  }

  lemma AcctByRest(s: State, action: Action, a: AccountId)
    requires action.TryLock? || action.LoseSenders? || action.ExpireSenders? || action.Tick? || action.Background?
    ensures AcctOf(Step(s, action), a) == AcctAfter(s, action, a)
  {
    hide OnFlushSenders, UnsettledSenders, PStep;
  }

  lemma ClockByStep(s: State, action: Action)
    ensures s.now <= Step(s, action).now
  {
    hide OnRead, PStep, ContextFor, OnAdd, OnDrop, OnClose, OnFlush, OnCommit, OnSave, Decide,
      OnFlushSenders, UnsettledSenders;
  }

  // The metrics an evaluator holds are those it held before, or those it has just read; its transaction is
  // the one it held before, or the one it has just taken the lock for.
  ghost predicate HoldsFrom(s: State, action: Action, d: nat, pc: Pc) {
    && (pc.Locked? ==> PcOf(s, d) == pc || action == TryLock(d, pc.tx))
    && (PhaseOf(pc).Reads? ==>
      || (PhaseOf(PcOf(s, d)).Reads? && pc.tx == PcOf(s, d).tx && pc.m == PcOf(s, d).m)
      || (action == ReadVolume(d) && PcOf(s, d).Locked? && pc.tx == PcOf(s, d).tx
          && pc.m == OnRead(AcctOf(s, pc.tx.from), pc.tx, s.pipe.history, s.now).1))
  }

  lemma HoldsByReading(s: State, action: Action, d: nat)
    requires action.ReadVolume? || action.CountSenders? || action.FetchStats?
    ensures HoldsFrom(s, action, d, PcOf(Step(s, action), d))
  {
    hide OnRead, ContextFor, AcctOf, RecvOf;
  }

  lemma HoldsByEvaluator(s: State, action: Action, d: nat)
    requires action.Commit? || action.FailBeforeCommit? || action.AddVolume?
    ensures HoldsFrom(s, action, d, PcOf(Step(s, action), d))
  {
    hide OnRead, OnCommit, OnSave, OnAdd, OnClose, Decide, OnApprove, AcctOf, RecvOf;
  }

  lemma HoldsByWrite(s: State, action: Action, d: nat)
    requires action.AddVolumeFails? || action.AddSender? || action.AddSenderFails?
    ensures HoldsFrom(s, action, d, PcOf(Step(s, action), d))
  {
    hide OnRead, OnDrop, OnAddSender, OnMissSender, AcctOf, RecvOf;
  }

  lemma HoldsByLock(s: State, action: Action, d: nat)
    requires action.Unlock? || action.TryLock?
    ensures HoldsFrom(s, action, d, PcOf(Step(s, action), d))
  {
    hide OnRead, OnClose, AcctOf, RecvOf;
  }

  lemma UnlockIdles(s: State, e: nat, d: nat)
    ensures PcOf(OnUnlock(s, e), d) == if d == e && PcOf(s, e).Finished? then Idle else PcOf(s, d)
    ensures d != e ==> PcOf(OnAddVolumeFails(s, e), d) == PcOf(OnAddSenderFails(s, e), d) == PcOf(s, d)
    ensures PcOf(OnFailBeforeCommit(s, e), d) ==
            if d == e && (PcOf(s, e).Locked? || PhaseOf(PcOf(s, e)).Reads?) then Idle else PcOf(s, d)
  {
    hide OnClose, OnDrop, OnMissSender, AcctOf, RecvOf;
  }

  lemma HoldsByCrash(s: State, e: nat, d: nat)
    ensures HoldsFrom(s, Crash(e), d, PcOf(OnCrash(s, e), d))
  {
    hide OnRead, PcOf, OnUnlock, OnFailBeforeCommit, OnAddVolumeFails, OnAddSenderFails;
    WritesSettle(s, e);
    UnlockIdles(s, e, d);
    UnlockIdles(OnAddVolumeFails(s, e), e, d);
    UnlockIdles(OnAddSenderFails(s, e), e, d);
  }

  lemma HoldsByRest(s: State, action: Action, d: nat)
    requires action.LoseVolume? || action.ExpireVolume? || action.LoseSenders? || action.ExpireSenders?
             || action.Tick? || action.Background?
    ensures HoldsFrom(s, action, d, PcOf(Step(s, action), d))
  {
    hide OnRead, OnFlush, OnFlushSenders, UnsettledSenders, PStep, Holder, AcctOf, RecvOf;
  }

  lemma HoldsByStep(s: State, action: Action, d: nat)
    ensures HoldsFrom(s, action, d, PcOf(Step(s, action), d))
  {
    hide HoldsFrom, OnCrash;
    match action
    case ReadVolume(_) => hide Step; HoldsByReading(s, action, d);
    case CountSenders(_) => hide Step; HoldsByReading(s, action, d);
    case FetchStats(_) => hide Step; HoldsByReading(s, action, d);
    case Commit(_) => hide Step; HoldsByEvaluator(s, action, d);
    case FailBeforeCommit(_) => hide Step; HoldsByEvaluator(s, action, d);
    case AddVolume(_) => hide Step; HoldsByEvaluator(s, action, d);
    case Crash(e) => HoldsByCrash(s, e, d);
    case TryLock(_, _) => hide Step; HoldsByLock(s, action, d);
    case AddVolumeFails(_) => hide Step; HoldsByWrite(s, action, d);
    case AddSender(_) => hide Step; HoldsByWrite(s, action, d);
    case AddSenderFails(_) => hide Step; HoldsByWrite(s, action, d);
    case Unlock(_) => hide Step; HoldsByLock(s, action, d);
    case _ => hide Step; HoldsByRest(s, action, d);
  }

  // --- Ends without a write -----------------------------------------------------------------

  // The same sets, senders, tables and clock; the evaluator is gone and the lock free.
  ghost predicate OnlyGone(s: State, t: State, e: nat) {
    && t.pipe == s.pipe && t.now == s.now && t.book == s.book
    && (forall a :: AcctOf(t, a).window == AcctOf(s, a).window && AcctOf(t, a).deadline == AcctOf(s, a).deadline)
    && (forall r :: RecvOf(t, r).senders == RecvOf(s, r).senders && RecvOf(t, r).deadline == RecvOf(s, r).deadline)
    && (forall d :: PcOf(t, d) == if d == e then Idle else PcOf(s, d))
    && t.locks == s.locks - (if PcOf(s, e).Idle? then {} else {PcOf(s, e).tx.from})
  }

  // An exception before the commit leaves nothing behind but what the read itself left.
  lemma FailingOnlyLeaves(s: State, e: nat)
    requires PcOf(s, e).Idle? || PcOf(s, e).Locked? || PhaseOf(PcOf(s, e)).Reads?
    ensures OnlyGone(s, Step(s, FailBeforeCommit(e)), e)
  {
    hide OnClose;
    var pc := PcOf(s, e);
    assert s.locks - {} == s.locks;
    if PhaseOf(pc).Reads? {
      CloseKeeps(AcctOf(s, pc.tx.from), PhaseOf(pc));
    }
  }

  lemma UnlockOnlyLeaves(s: State, e: nat)
    requires PcOf(s, e).Finished?
    ensures OnlyGone(s, OnUnlock(s, e), e)
  {
    hide OnClose;
    CloseKeeps(AcctOf(s, PcOf(s, e).tx.from), PhaseOf(PcOf(s, e)));
  }

  lemma WriteFailsAlone(s: State, e: nat)
    requires PcOf(s, e).Saved? || PcOf(s, e).Cached?
    ensures var t := if PcOf(s, e).Saved? then OnAddVolumeFails(s, e) else OnAddSenderFails(s, e);
      && PcOf(t, e).Finished? && PcOf(t, e).tx == PcOf(s, e).tx && t.locks == s.locks
      && t.pipe == s.pipe && t.now == s.now && t.book == s.book
      && (forall a :: AcctOf(t, a).window == AcctOf(s, a).window && AcctOf(t, a).deadline == AcctOf(s, a).deadline)
      && (forall r :: RecvOf(t, r).senders == RecvOf(s, r).senders && RecvOf(t, r).deadline == RecvOf(s, r).deadline)
      && (forall d | d != e :: PcOf(t, d) == PcOf(s, d))
  {
    hide WithFate;
  }

  lemma LateDeathOnlyLeaves(s: State, e: nat)
    requires PcOf(s, e).Saved? || PcOf(s, e).Cached?
    ensures OnlyGone(s, OnCrash(s, e), e)
  {
    hide OnAddVolumeFails, OnAddSenderFails, OnUnlock, AcctOf, RecvOf, PcOf;
    var t := if PcOf(s, e).Saved? then OnAddVolumeFails(s, e) else OnAddSenderFails(s, e);
    WriteFailsAlone(s, e);
    UnlockOnlyLeaves(t, e);
  }

  // Nor does an evaluator that dies where it stands, before, between or after its writes.
  lemma DeathOnlyLeaves(s: State, e: nat)
    ensures OnlyGone(s, Step(s, Crash(e)), e)
  {
    var pc := PcOf(s, e);
    if pc.Saved? || pc.Cached? {
      LateDeathOnlyLeaves(s, e);
      hide OnCrash, OnlyGone;
    } else if pc.Finished? {
      UnlockOnlyLeaves(s, e);
      hide OnUnlock, OnlyGone;
    } else {
      DeathBeforeSave(s, e);
      hide OnCrash, OnlyGone;
    }
  }

  lemma DeathBeforeSave(s: State, e: nat)
    requires PcOf(s, e).Idle? || PcOf(s, e).Locked? || PhaseOf(PcOf(s, e)).Reads?
    ensures OnlyGone(s, OnCrash(s, e), e)
  {
    hide OnlyGone;
    FailingOnlyLeaves(s, e);
    CrashIsFailing(s, e);
  }

  lemma CrashIsFailing(s: State, e: nat)
    requires PcOf(s, e).Idle? || PcOf(s, e).Locked? || PhaseOf(PcOf(s, e)).Reads?
    ensures OnCrash(s, e) == Step(s, FailBeforeCommit(e))
  {
    hide OnClose;
  }

  lemma CloseKeeps(c: Acct, phase: Phase)
    requires phase.Reads? || phase.Settled?
    ensures OnClose(c, phase).window == c.window && OnClose(c, phase).deadline == c.deadline
  {
    hide CallOf;
  }

  // --- Losses ---------------------------------------------------------------------------------

  // A lost sorted set is empty at once, whatever its deadline, and nothing else is touched.
  lemma LossOnlyEmpties(s: State, a: AccountId)
    ensures var t := Step(s, LoseVolume(a));
      && t == s.(accts := t.accts) && AcctOf(t, a).window == EMPTY
      && AcctOf(t, a).txs == AcctOf(s, a).txs && AcctOf(t, a).deadline == AcctOf(s, a).deadline
      && forall b | b != a :: AcctOf(t, b) == AcctOf(s, b)
  {
    hide Holder, WithTear;
    assert !AcctOf(s, a).window.Exists() ==> AcctOf(s, a).window == EMPTY;
  }

  lemma SendersLossOnlyEmpties(s: State, r: AccountId)
    ensures var t := Step(s, LoseSenders(r));
      && t == s.(recvs := t.recvs) && RecvOf(t, r).senders == {} && RecvOf(t, r).deadline == RecvOf(s, r).deadline
      && forall x | x != r :: RecvOf(t, x) == RecvOf(s, x)
  {
    hide UnsettledSenders;
  }
}
