/** One whole evaluation run without interruption, from taking the lock to releasing it, and where it ends. */
module Solo {
  import opened Domain
  import opened Verdict
  import opened Rules
  import opened History
  import opened Context
  import opened Window
  import opened Account
  import opened Receivers
  import opened Pipeline
  import opened Machine
  import opened Interleaving

  // How the evaluation ends once its transaction is committed.
  datatype Ending = Cachedly | WithoutSender | WithoutVolume

  function EndActions(e: nat, ending: Ending): seq<Action> {
    match ending
    case Cachedly => [AddVolume(e), AddSender(e), Unlock(e)]
    case WithoutSender => [AddVolume(e), AddSenderFails(e), Unlock(e)]
    case WithoutVolume => [AddVolumeFails(e), Unlock(e)]
  }

  function StartActions(e: nat, tx: Tx): seq<Action> {
    [TryLock(e, tx), ReadVolume(e), CountSenders(e), FetchStats(e), Commit(e)]
  }

  function SoloActions(e: nat, tx: Tx, ending: Ending): seq<Action> { StartActions(e, tx) + EndActions(e, ending) }

  function AbortActions(e: nat, tx: Tx): seq<Action> { [TryLock(e, tx), ReadVolume(e), FailBeforeCommit(e)] }

  ghost function Steps(s: State, actions: seq<Action>): State {
    if actions == [] then s else Step(Steps(s, actions[..|actions| - 1]), actions[|actions| - 1])
  }

  lemma {:induction false} RunSteps(actions: seq<Action>, more: seq<Action>)
    ensures Run(actions + more) == Steps(Run(actions), more)
  {
    hide Step;
    if more == [] {
      assert actions + more == actions;
    } else {
      RunSteps(actions, more[..|more| - 1]);
      assert (actions + more)[..|actions + more| - 1] == actions + more[..|more| - 1];
    }
  }

  // --- Where the evaluation stands ---------------------------------------------------

  // The evaluator is idle, the lock is free, and the transaction contradicts no earlier one.
  predicate Free(s: State, e: nat, tx: Tx) {
    PcOf(s, e).Idle? && tx.from !in s.locks && (KeyOf(tx) in s.book ==> s.book[KeyOf(tx)] == tx)
  }

  ghost function ReadOf(s: State, tx: Tx): (Acct, Metrics) {
    OnRead(AcctOf(s, tx.from), tx, s.pipe.history, s.now)
  }

  ghost function ContextAt(s: State, tx: Tx): AccountContext {
    ContextFor(tx, ReadOf(s, tx).1, |RecvOf(s, tx.to).senders|, s.pipe.history)
  }

  ghost function StatusAt(s: State, tx: Tx): TransactionStatus { Decide(tx, ContextAt(s, tx)) }

  ghost function EventAt(s: State, tx: Tx): Event { EventFor(tx, ContextAt(s, tx), s.now) }

  ghost function AcctAt(s: State, tx: Tx): Acct {
    var (c, m) := ReadOf(s, tx);
    OnCommit(c, tx, m, StatusAt(s, tx))
  }

  ghost function RecvAt(s: State, tx: Tx): Receiver {
    if StatusAt(s, tx) == APPROVED then OnApprove(RecvOf(s, tx.to), tx.from, s.now) else RecvOf(s, tx.to)
  }

  // Holding the lock, at `pc` and with the account as `c`.
  function Inside(s: State, e: nat, tx: Tx, pc: Pc, c: Acct): State {
    s.(evals := s.evals[e := pc], locks := s.locks[tx.from := e], accts := s.accts[tx.from := c],
       book := s.book[KeyOf(tx) := tx])
  }

  ghost function AfterCommit(s: State, e: nat, tx: Tx): State {
    var m := ReadOf(s, tx).1;
    Inside(s, e, tx, Saved(tx, m, ContextAt(s, tx)), AcctAt(s, tx)).(
      recvs := s.recvs[tx.to := RecvAt(s, tx)], pipe := OnSave(s.pipe, EventAt(s, tx), s.now), now := s.now + 1)
  }

  // Back outside the lock.
  function Outside(s: State, e: nat, tx: Tx, c: Acct): State {
    s.(evals := s.evals[e := Idle], accts := s.accts[tx.from := c], book := s.book[KeyOf(tx) := tx])
  }

  ghost function Ended(s: State, e: nat, tx: Tx, c: Acct, r: Receiver): State {
    Outside(s, e, tx, c).(
      recvs := s.recvs[tx.to := r], pipe := OnSave(s.pipe, EventAt(s, tx), s.now), now := s.now + 1)
  }

  ghost function After(s: State, e: nat, tx: Tx, ending: Ending): State {
    var m, c, r := ReadOf(s, tx).1, AcctAt(s, tx), RecvAt(s, tx);
    match ending
    case Cachedly =>
      Ended(s, e, tx, OnClose(OnAdd(c, tx, s.now + 1), Settled(tx, m, true)), OnAddSender(r, tx.from, s.now + 1))
    case WithoutSender =>
      Ended(s, e, tx, OnClose(OnAdd(c, tx, s.now + 1), Settled(tx, m, true)), OnMissSender(r, tx.from))
    case WithoutVolume =>
      Ended(s, e, tx, OnClose(OnDrop(c, tx), Settled(tx, m, false)), OnMissSender(r, tx.from))
  }

  ghost function AfterAbort(s: State, e: nat, tx: Tx): State {
    var (c, m) := ReadOf(s, tx);
    Outside(s, e, tx, OnClose(c, Reads(tx, m)))
  }

  // --- Step by step ----------------------------------------------------------------------

  lemma LockStep(s: State, e: nat, tx: Tx)
    requires Free(s, e, tx)
    ensures Step(s, TryLock(e, tx)) ==
            s.(evals := s.evals[e := Locked(tx)], locks := s.locks[tx.from := e], book := s.book[KeyOf(tx) := tx])
  {
  }

  lemma ReadStep(s: State, e: nat, tx: Tx)
    requires Free(s, e, tx)
    ensures Step(Step(s, TryLock(e, tx)), ReadVolume(e)) ==
            Inside(s, e, tx, Metered(tx, ReadOf(s, tx).1), ReadOf(s, tx).0)
  {
    hide OnRead;
    LockStep(s, e, tx);
    var t := Step(s, TryLock(e, tx));
    assert AcctOf(t, tx.from) == AcctOf(s, tx.from);
    assert t.evals[e := Metered(tx, ReadOf(s, tx).1)] == s.evals[e := Metered(tx, ReadOf(s, tx).1)];
  }

  lemma MoveInside(s: State, e: nat, tx: Tx, pc: Pc, c: Acct, next: Pc, d: Acct)
    requires !next.Idle? && next.tx == tx
    ensures Move(Inside(s, e, tx, pc, c), e, next, d) == Inside(s, e, tx, next, d)
    ensures AcctOf(Inside(s, e, tx, pc, c), tx.from) == c && PcOf(Inside(s, e, tx, pc, c), e) == pc
  {
    assert s.evals[e := pc][e := next] == s.evals[e := next];
    assert s.accts[tx.from := c][tx.from := d] == s.accts[tx.from := d];
  }

  lemma ContextSteps(s: State, e: nat, tx: Tx, m: Metrics, c: Acct)
    ensures Step(Step(Inside(s, e, tx, Metered(tx, m), c), CountSenders(e)), FetchStats(e)) ==
            Inside(s, e, tx, Ready(tx, m, ContextFor(tx, m, |RecvOf(s, tx.to).senders|, s.pipe.history)), c)
  {
    hide ContextFor, Inside, Move;
    var n := |RecvOf(s, tx.to).senders|;
    InsideKeeps(s, e, tx, Metered(tx, m), c);
    InsideKeeps(s, e, tx, Counted(tx, m, n), c);
    MoveInside(s, e, tx, Metered(tx, m), c, Counted(tx, m, n), c);
    MoveInside(s, e, tx, Counted(tx, m, n), c, Ready(tx, m, ContextFor(tx, m, n, s.pipe.history)), c);
  }

  lemma InsideKeeps(s: State, e: nat, tx: Tx, pc: Pc, c: Acct)
    ensures var t := Inside(s, e, tx, pc, c);
      t.recvs == s.recvs && t.pipe == s.pipe && t.now == s.now && RecvOf(t, tx.to) == RecvOf(s, tx.to)
  {
  }

  lemma CommitStep(s: State, e: nat, tx: Tx)
    ensures Step(Inside(s, e, tx, Ready(tx, ReadOf(s, tx).1, ContextAt(s, tx)), ReadOf(s, tx).0), Commit(e)) ==
            AfterCommit(s, e, tx)
  {
    hide Inside, Move, OnCommit, OnSave, Decide, Results, ContextAt, ReadOf;
    var (c, m) := ReadOf(s, tx);
    var ctx := ContextAt(s, tx);
    DecisionGuards(tx, m.(volume := ctx.volume24h), ctx);
    InsideKeeps(s, e, tx, Ready(tx, m, ctx), c);
    InsideKeeps(s, e, tx, Saved(tx, m, ctx), AcctAt(s, tx));
    MoveInside(s, e, tx, Ready(tx, m, ctx), c, Saved(tx, m, ctx), AcctAt(s, tx));
  }

  lemma StartSteps(s: State, e: nat, tx: Tx)
    requires Free(s, e, tx)
    ensures Steps(s, StartActions(e, tx)) == AfterCommit(s, e, tx)
  {
    hide Step, Inside, AfterCommit, OnRead, ContextFor;
    var q := StartActions(e, tx);
    assert q[..4][..3] == q[..3] && q[..3][..2] == q[..2] && q[..2][..1] == q[..1] && q[..1][..0] == [];
    ReadStep(s, e, tx);
    ContextSteps(s, e, tx, ReadOf(s, tx).1, ReadOf(s, tx).0);
    CommitStep(s, e, tx);
    assert Steps(s, q[..1]) == Step(s, TryLock(e, tx));
    assert Steps(s, q[..2]) == Step(Steps(s, q[..1]), ReadVolume(e));
    assert Steps(s, q[..3]) == Step(Steps(s, q[..2]), CountSenders(e));
    assert Steps(s, q[..4]) == Step(Steps(s, q[..3]), FetchStats(e));
  }

  // --- The endings ------------------------------------------------------------------------

  // Inside the lock, after the commit.
  function Late(s: State, e: nat, tx: Tx, pc: Pc, c: Acct, r: Receiver, pipe: Pipe): State {
    Inside(s, e, tx, pc, c).(recvs := s.recvs[tx.to := r], pipe := pipe, now := s.now + 1)
  }

  lemma LateKeeps(s: State, e: nat, tx: Tx, pc: Pc, c: Acct, r: Receiver, pipe: Pipe)
    ensures var t := Late(s, e, tx, pc, c, r, pipe);
      && AcctOf(t, tx.from) == c && PcOf(t, e) == pc && RecvOf(t, tx.to) == r && t.now == s.now + 1
  {
  }

  lemma MoveLate(s: State, e: nat, tx: Tx, pc: Pc, c: Acct, r: Receiver, pipe: Pipe, next: Pc, d: Acct, q: Receiver)
    requires !next.Idle? && next.tx == tx
    ensures Move(Late(s, e, tx, pc, c, r, pipe), e, next, d) == Late(s, e, tx, next, d, r, pipe)
    ensures SetRecv(Late(s, e, tx, next, d, r, pipe), tx.to, q) == Late(s, e, tx, next, d, q, pipe)
  {
    assert s.evals[e := pc][e := next] == s.evals[e := next];
    assert s.accts[tx.from := c][tx.from := d] == s.accts[tx.from := d];
    assert s.recvs[tx.to := r][tx.to := q] == s.recvs[tx.to := q];
  }

  lemma LeaveLate(s: State, e: nat, tx: Tx, pc: Pc, c: Acct, r: Receiver, pipe: Pipe, d: Acct)
    requires tx.from !in s.locks
    ensures Leave(Late(s, e, tx, pc, c, r, pipe), e, tx.from, d) ==
            Outside(s, e, tx, d).(recvs := s.recvs[tx.to := r], pipe := pipe, now := s.now + 1)
  {
    assert s.evals[e := pc][e := Idle] == s.evals[e := Idle];
    assert s.accts[tx.from := c][tx.from := d] == s.accts[tx.from := d];
    assert s.locks[tx.from := e] - {tx.from} == s.locks;
  }

  lemma VolumeStep(s: State, e: nat, tx: Tx, m: Metrics, ctx: AccountContext, c: Acct, r: Receiver, pipe: Pipe)
    ensures Step(Late(s, e, tx, Saved(tx, m, ctx), c, r, pipe), AddVolume(e)) ==
            Late(s, e, tx, Cached(tx, m, ctx), OnAdd(c, tx, s.now + 1), r, pipe)
    ensures Step(Late(s, e, tx, Saved(tx, m, ctx), c, r, pipe), AddVolumeFails(e)) ==
            Late(s, e, tx, Finished(tx, m, false), OnDrop(c, tx), OnMissSender(r, tx.from), pipe)
  {
    hide Late, Move, SetRecv, OnAdd, OnDrop, OnMissSender;
    LateKeeps(s, e, tx, Saved(tx, m, ctx), c, r, pipe);
    MoveLate(s, e, tx, Saved(tx, m, ctx), c, r, pipe, Cached(tx, m, ctx), OnAdd(c, tx, s.now + 1), r);
    MoveLate(s, e, tx, Saved(tx, m, ctx), c, r, pipe, Finished(tx, m, false), OnDrop(c, tx), OnMissSender(r, tx.from));
  }

  lemma SenderStep(s: State, e: nat, tx: Tx, m: Metrics, ctx: AccountContext, c: Acct, r: Receiver, pipe: Pipe)
    ensures Step(Late(s, e, tx, Cached(tx, m, ctx), c, r, pipe), AddSender(e)) ==
            Late(s, e, tx, Finished(tx, m, true), c, OnAddSender(r, tx.from, s.now + 1), pipe)
    ensures Step(Late(s, e, tx, Cached(tx, m, ctx), c, r, pipe), AddSenderFails(e)) ==
            Late(s, e, tx, Finished(tx, m, true), c, OnMissSender(r, tx.from), pipe)
  {
    hide Late, Move, SetRecv, OnAddSender, OnMissSender;
    var next := Finished(tx, m, true);
    LateKeeps(s, e, tx, Cached(tx, m, ctx), c, r, pipe);
    MoveLate(s, e, tx, Cached(tx, m, ctx), c, r, pipe, next, c, OnAddSender(r, tx.from, s.now + 1));
    MoveLate(s, e, tx, Cached(tx, m, ctx), c, r, pipe, next, c, OnMissSender(r, tx.from));
  }

  lemma UnlockStep(s: State, e: nat, tx: Tx, m: Metrics, added: bool, c: Acct, r: Receiver, pipe: Pipe)
    requires tx.from !in s.locks
    ensures Step(Late(s, e, tx, Finished(tx, m, added), c, r, pipe), Unlock(e)) ==
            Outside(s, e, tx, OnClose(c, Settled(tx, m, added))).(
              recvs := s.recvs[tx.to := r], pipe := pipe, now := s.now + 1)
  {
    hide Late, Leave, Outside, OnClose;
    LateKeeps(s, e, tx, Finished(tx, m, added), c, r, pipe);
    LeaveLate(s, e, tx, Finished(tx, m, added), c, r, pipe, OnClose(c, Settled(tx, m, added)));
  }

  lemma EndSteps(s: State, e: nat, tx: Tx, ending: Ending)
    requires tx.from !in s.locks
    ensures Steps(AfterCommit(s, e, tx), EndActions(e, ending)) == After(s, e, tx, ending)
  {
    hide Step, Inside, Outside, ReadOf, ContextAt, AcctAt, RecvAt, EventAt, OnAdd, OnDrop, OnClose, OnSave,
      OnAddSender, OnMissSender;
    var m, ctx, c, r := ReadOf(s, tx).1, ContextAt(s, tx), AcctAt(s, tx), RecvAt(s, tx);
    var pipe, t := OnSave(s.pipe, EventAt(s, tx), s.now), AfterCommit(s, e, tx);
    var q := EndActions(e, ending);
    assert t == Late(s, e, tx, Saved(tx, m, ctx), c, r, pipe);
    VolumeStep(s, e, tx, m, ctx, c, r, pipe);
    assert q[..1][..0] == [] && Steps(t, q[..1]) == Step(t, q[0]);
    if ending.WithoutVolume? {
      UnlockStep(s, e, tx, m, false, OnDrop(c, tx), OnMissSender(r, tx.from), pipe);
      assert Steps(t, q) == Step(Steps(t, q[..1]), q[1]);
    } else {
      var d := OnAdd(c, tx, s.now + 1);
      SenderStep(s, e, tx, m, ctx, d, r, pipe);
      assert q[..2][..1] == q[..1] && Steps(t, q[..2]) == Step(Steps(t, q[..1]), q[1]);
      assert Steps(t, q) == Step(Steps(t, q[..2]), q[2]);
      UnlockStep(s, e, tx, m, true, d, OnAddSender(r, tx.from, s.now + 1), pipe);
      UnlockStep(s, e, tx, m, true, d, OnMissSender(r, tx.from), pipe);
    }
  }

  lemma {:induction false} StepsConcat(s: State, q: seq<Action>, r: seq<Action>)
    ensures Steps(s, q + r) == Steps(Steps(s, q), r)
  {
    hide Step;
    if r == [] {
      assert q + r == q;
    } else {
      StepsConcat(s, q, r[..|r| - 1]);
      assert (q + r)[..|q + r| - 1] == q + r[..|r| - 1];
    }
  }

  // An uninterrupted evaluation leaves exactly this state behind.
  lemma SoloEnds(s: State, e: nat, tx: Tx, ending: Ending)
    requires Free(s, e, tx)
    ensures Steps(s, SoloActions(e, tx, ending)) == After(s, e, tx, ending)
  {
    hide Step, AfterCommit, After;
    StepsConcat(s, StartActions(e, tx), EndActions(e, ending));
    StartSteps(s, e, tx);
    EndSteps(s, e, tx, ending);
  }

  lemma AbortEnds(s: State, e: nat, tx: Tx)
    requires Free(s, e, tx)
    ensures Steps(s, AbortActions(e, tx)) == AfterAbort(s, e, tx)
  {
    hide Step, OnRead, OnClose, Inside;
    var q := AbortActions(e, tx);
    assert q[..2][..1] == q[..1] && q[..1][..0] == [];
    ReadStep(s, e, tx);
    assert Steps(s, q[..1]) == Step(s, TryLock(e, tx));
    assert Steps(s, q[..2]) == Step(Steps(s, q[..1]), ReadVolume(e));
    AbortStep(s, e, tx, ReadOf(s, tx).1, ReadOf(s, tx).0);
  }

  lemma AbortStep(s: State, e: nat, tx: Tx, m: Metrics, c: Acct)
    requires tx.from !in s.locks
    ensures Step(Inside(s, e, tx, Metered(tx, m), c), FailBeforeCommit(e)) ==
            Outside(s, e, tx, OnClose(c, Reads(tx, m)))
  {
    hide OnClose;
    assert s.evals[e := Metered(tx, m)][e := Idle] == s.evals[e := Idle];
    assert s.accts[tx.from := c][tx.from := OnClose(c, Reads(tx, m))] == s.accts[tx.from := OnClose(c, Reads(tx, m))];
    assert s.locks[tx.from := e] - {tx.from} == s.locks;
    assert AcctOf(Inside(s, e, tx, Metered(tx, m), c), tx.from) == c;
  }
}
