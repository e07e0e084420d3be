/** The whole service as one step machine: many evaluators under per-account locks, the sorted sets,
    the sender sets, and the outbox pipeline, all interleaved. An action that is not possible in a
    state leaves the state as it is, so every list of actions is an interleaving. */
module Machine {
  import opened Domain
  import opened Verdict
  import opened Rules
  import opened History
  import opened Context
  import opened Window
  import opened Account
  import opened Receivers
  import opened Pipeline

  // Where one evaluator stands in `evaluate`.
  datatype Pc =
    | Idle
    | Locked(tx: Tx)
    | Metered(tx: Tx, m: Metrics)
    | Counted(tx: Tx, m: Metrics, senders: nat)
    | Ready(tx: Tx, m: Metrics, ctx: AccountContext)
    | Saved(tx: Tx, m: Metrics, ctx: AccountContext)
    | Cached(tx: Tx, m: Metrics, ctx: AccountContext)
    | Finished(tx: Tx, m: Metrics, added: bool)

  function PhaseOf(pc: Pc): Phase {
    match pc
    case Idle => Out
    case Locked(_) => Out
    case Metered(tx, m) => Reads(tx, m)
    case Counted(tx, m, _) => Reads(tx, m)
    case Ready(tx, m, _) => Reads(tx, m)
    case Saved(tx, m, _) => Committed(tx, m)
    case Cached(tx, m, _) => Settled(tx, m, true)
    case Finished(tx, m, added) => Settled(tx, m, added)
  }

  // `book` remembers which transaction each history key has named.
  datatype State = State(
    evals: map<nat, Pc>, locks: map<AccountId, nat>,
    accts: map<AccountId, Acct>, recvs: map<AccountId, Receiver>,
    pipe: Pipe, book: map<HKey, Tx>, now: nat)

  const BOOT: State := State(map[], map[], map[], map[], START, map[], 0)

  function PcOf(s: State, e: nat): Pc { if e in s.evals then s.evals[e] else Idle }
  function AcctOf(s: State, a: AccountId): Acct { if a in s.accts then s.accts[a] else NEW }
  function RecvOf(s: State, r: AccountId): Receiver { if r in s.recvs then s.recvs[r] else UNKNOWN }

  predicate Toward(pc: Pc, r: AccountId) { !pc.Idle? && pc.tx.to == r }

  // Committed on a count that passes, but its sender is not added yet.
  predicate Unsettled(pc: Pc, r: AccountId) {
    Toward(pc, r) && (pc.Saved? || pc.Cached?) && pc.ctx.uniqueCounterparties24h <= MAX_COUNTERPARTIES
  }

  function UnsettledSenders(evals: map<nat, Pc>, r: AccountId): set<AccountId> {
    set e | e in evals && Unsettled(evals[e], r) :: evals[e].tx.from
  }

  // The phase of the evaluation that holds the account's lock.
  function Holder(s: State, a: AccountId): Phase {
    if a in s.locks then PhaseOf(PcOf(s, s.locks[a])) else Out
  }

  datatype Action =
    | TryLock(e: nat, tx: Tx)
    | ReadVolume(e: nat)
    | CountSenders(e: nat)
    | FetchStats(e: nat)
    | Commit(e: nat)
    | FailBeforeCommit(e: nat)
    | AddVolume(e: nat)
    | AddVolumeFails(e: nat)
    | AddSender(e: nat)
    | AddSenderFails(e: nat)
    | Unlock(e: nat)
    | Crash(e: nat)
    | LoseVolume(a: AccountId)
    | ExpireVolume(a: AccountId)
    | LoseSenders(r: AccountId)
    | ExpireSenders(r: AccountId)
    | Tick(d: nat)
    | Background(action: PipeAction)

  // The evaluator moves on inside its critical section and leaves the account as `c`.
  function Move(s: State, e: nat, pc: Pc, c: Acct): State
    requires !pc.Idle?
  {
    s.(evals := s.evals[e := pc], accts := s.accts[pc.tx.from := c])
  }

  // The evaluator leaves, unlocks and leaves the account as `c`.
  function Leave(s: State, e: nat, a: AccountId, c: Acct): State {
    s.(evals := s.evals[e := Idle], locks := s.locks - {a}, accts := s.accts[a := c])
  }

  function SetRecv(s: State, r: AccountId, v: Receiver): State { s.(recvs := s.recvs[r := v]) }

  // A lock that stays taken for the whole wait ends the request and changes nothing. A transaction that
  // shares its history key with a different earlier one is not part of the model.
  function OnTryLock(s: State, e: nat, tx: Tx): State {
    if PcOf(s, e).Idle? && tx.from !in s.locks && (KeyOf(tx) in s.book ==> s.book[KeyOf(tx)] == tx) then
      s.(evals := s.evals[e := Locked(tx)], locks := s.locks[tx.from := e], book := s.book[KeyOf(tx) := tx])
    else s
  }

  ghost function OnReadVolume(s: State, e: nat): State {
    match PcOf(s, e)
    case Locked(tx) =>
      var (c, m) := OnRead(AcctOf(s, tx.from), tx, s.pipe.history, s.now);
      Move(s, e, Metered(tx, m), c)
    case _ => s
  }

  function OnCountSenders(s: State, e: nat): State {
    match PcOf(s, e)
    case Metered(tx, m) => Move(s, e, Counted(tx, m, |RecvOf(s, tx.to).senders|), AcctOf(s, tx.from))
    case _ => s
  }

  ghost function ContextFor(tx: Tx, m: Metrics, senders: nat, h: Table): AccountContext {
    var stats := FetchGroupedStats(h, tx.from, tx.createdAt - THIRTY_DAYS, tx.createdAt);
    ContextOf(m.volume, m.count, senders, GroupCount(stats), GroupTotal(stats), GroupP2p(stats))
  }

  ghost function OnFetchStats(s: State, e: nat): State {
    match PcOf(s, e)
    case Counted(tx, m, senders) =>
      Move(s, e, Ready(tx, m, ContextFor(tx, m, senders, s.pipe.history)), AcctOf(s, tx.from))
    case _ => s
  }

  function Decide(tx: Tx, ctx: AccountContext): TransactionStatus { StatusOf(Results(tx, ctx)) }

  // The clock advances between two commits. A rejected transaction skips the cache.
  ghost function OnCommitStep(s: State, e: nat): State {
    match PcOf(s, e)
    case Ready(tx, m, ctx) =>
      var status := Decide(tx, ctx);
      var event := Event(tx, status, Results(tx, ctx), s.now);
      var c := OnCommit(AcctOf(s, tx.from), tx, m, status);
      var next := if status != REJECTED then Saved(tx, m, ctx) else Finished(tx, m, false);
      var r := if status == APPROVED then OnApprove(RecvOf(s, tx.to), tx.from, s.now) else RecvOf(s, tx.to);
      SetRecv(Move(s, e, next, c), tx.to, r).(pipe := OnSave(s.pipe, event, s.now), now := s.now + 1)
    case _ => s
  }

  // Any exception up to and including the save: the database rolls back, `finally` unlocks.
  function OnFailBeforeCommit(s: State, e: nat): State {
    var pc := PcOf(s, e);
    if pc.Locked? then Leave(s, e, pc.tx.from, AcctOf(s, pc.tx.from))
    else if PhaseOf(pc).Reads? then Leave(s, e, pc.tx.from, OnClose(AcctOf(s, pc.tx.from), PhaseOf(pc)))
    else s
  }

  function OnAddVolume(s: State, e: nat): State {
    match PcOf(s, e)
    case Saved(tx, m, ctx) => Move(s, e, Cached(tx, m, ctx), OnAdd(AcctOf(s, tx.from), tx, s.now))
    case _ => s
  }

  function OnAddVolumeFails(s: State, e: nat): State {
    match PcOf(s, e)
    case Saved(tx, m, ctx) =>
      SetRecv(Move(s, e, Finished(tx, m, false), OnDrop(AcctOf(s, tx.from), tx)),
              tx.to, OnMissSender(RecvOf(s, tx.to), tx.from))
    case _ => s
  }

  function OnAddSenderStep(s: State, e: nat): State {
    match PcOf(s, e)
    case Cached(tx, m, ctx) =>
      SetRecv(Move(s, e, Finished(tx, m, true), AcctOf(s, tx.from)),
              tx.to, OnAddSender(RecvOf(s, tx.to), tx.from, s.now))
    case _ => s
  }

  function OnAddSenderFails(s: State, e: nat): State {
    match PcOf(s, e)
    case Cached(tx, m, ctx) =>
      SetRecv(Move(s, e, Finished(tx, m, true), AcctOf(s, tx.from)),
              tx.to, OnMissSender(RecvOf(s, tx.to), tx.from))
    case _ => s
  }

  function OnUnlock(s: State, e: nat): State {
    match PcOf(s, e)
    case Finished(tx, m, added) => Leave(s, e, tx.from, OnClose(AcctOf(s, tx.from), Settled(tx, m, added)))
    case _ => s
  }

  // The evaluator dies where it stands; its lock is released when the lease runs out.
  function OnCrash(s: State, e: nat): State {
    match PcOf(s, e)
    case Idle => s
    case Saved(_, _, _) => OnUnlock(OnAddVolumeFails(s, e), e)
    case Cached(_, _, _) => OnUnlock(OnAddSenderFails(s, e), e)
    case Finished(_, _, _) => OnUnlock(s, e)
    case _ => OnFailBeforeCommit(s, e)
  }

  function OnFlushVolume(s: State, a: AccountId, expired: bool): State {
    var c := AcctOf(s, a);
    if c.window.Exists() && (expired ==> c.deadline <= s.now) then
      s.(accts := s.accts[a := OnFlush(c, Holder(s, a), expired)])
    else s
  }

  function OnFlushSendersStep(s: State, r: AccountId, expired: bool): State {
    var v := RecvOf(s, r);
    if expired ==> v.deadline <= s.now then
      SetRecv(s, r, OnFlushSenders(v, expired, UnsettledSenders(s.evals, r)))
    else s
  }

  ghost function Step(s: State, action: Action): State {
    match action
    case TryLock(e, tx) => OnTryLock(s, e, tx)
    case ReadVolume(e) => OnReadVolume(s, e)
    case CountSenders(e) => OnCountSenders(s, e)
    case FetchStats(e) => OnFetchStats(s, e)
    case Commit(e) => OnCommitStep(s, e)
    case FailBeforeCommit(e) => OnFailBeforeCommit(s, e)
    case AddVolume(e) => OnAddVolume(s, e)
    case AddVolumeFails(e) => OnAddVolumeFails(s, e)
    case AddSender(e) => OnAddSenderStep(s, e)
    case AddSenderFails(e) => OnAddSenderFails(s, e)
    case Unlock(e) => OnUnlock(s, e)
    case Crash(e) => OnCrash(s, e)
    case LoseVolume(a) => OnFlushVolume(s, a, false)
    case ExpireVolume(a) => OnFlushVolume(s, a, true)
    case LoseSenders(r) => OnFlushSendersStep(s, r, false)
    case ExpireSenders(r) => OnFlushSendersStep(s, r, true)
    case Tick(d) => s.(now := s.now + d)
    case Background(pa) => if pa.Save? then s else s.(pipe := PStep(s.pipe, pa))
  }

  ghost function Run(actions: seq<Action>): State {
    if actions == [] then BOOT else Step(Run(actions[..|actions| - 1]), actions[|actions| - 1])
  }
}
