/** The bound on the overshoot is attained: for every number of evaluations in flight at once there is a run in
    which that many senders beyond the limit are approved. */
module Crowd {
  import opened Domain
  import opened Verdict
  import opened Rules
  import opened Sums
  import opened History
  import opened Context
  import opened Window
  import opened Account
  import opened Receivers
  import opened Pipeline
  import opened Machine
  import opened Interleaving
  import opened Solo
  import opened Stage
  import opened Overshoot

  // Names that differ by their length.
  function Payer(n: nat): AccountId { seq(n, _ => 'p') }

  function Payers(n: nat): set<AccountId> { set i | 0 <= i < n :: Payer(i) }

  function Payment(n: nat, r: AccountId): Tx { Tx(n, Payer(n), r, 0, "EUR", "5999", false, 0) }

  lemma {:induction false} PayersGrow(n: nat)
    ensures |Payers(n)| == n && Payer(n) !in Payers(n) && Payers(n + 1) == Payers(n) + {Payer(n)}
  {
    assert forall i | 0 <= i < n :: |Payer(i)| == i;
    assert |Payer(n)| == n;
    if n > 0 {
      PayersGrow(n - 1);
    }
  }

  // From number `n` on no payer has been seen.
  ghost predicate Unseen(s: State, n: nat) {
    && s.pipe.history == map[] && (forall k | k in s.book :: k.id < n)
    && forall i: nat | n <= i :: AcctOf(s, Payer(i)) == NEW && Payer(i) !in s.locks
  }

  // The set holds the first `k` payers; the first `n` are approved.
  ghost predicate Joined(s: State, r: AccountId, k: nat, n: nat) {
    RecvOf(s, r).senders == Payers(k) && ApprovedSenders(Events(s.pipe.wal), r) == Payers(n)
  }

  // Nothing but the count can speak against an approval.
  predicate Light(ctx: AccountContext, k: nat) {
    ctx.volume24h == 0 && ctx.uniqueCounterparties24h == k && ctx.p2pRatio30d == 0.0
  }

  lemma NewcomerReads(s: State, r: AccountId, n: nat, k: nat)
    requires Unseen(s, n) && RecvOf(s, r).senders == Payers(k)
    ensures Free(s, 0, Payment(n, r)) <==> PcOf(s, 0).Idle?
    ensures forall e :: PcOf(s, e).Idle? ==> Free(s, e, Payment(n, r))
    ensures Light(ContextAt(s, Payment(n, r)), k)
  {
    hide OnRead, FetchGroupedStats;
    var tx := Payment(n, r);
    PayersGrow(k);
    ReadOnEmpty(NEW, tx, s.now);
    EmptyTable(tx.from, tx.createdAt - THIRTY_DAYS, tx.createdAt);
    assert Kept([], tx.createdAt - DAY) == [] && Total([]) == 0;
    assert AcctOf(s, Payer(n)) == NEW;
  }

  lemma LightApproves(tx: Tx, ctx: AccountContext, k: nat)
    requires Light(ctx, k) && k <= MAX_COUNTERPARTIES && tx.amount == 0
    ensures Decide(tx, ctx) == APPROVED
  {
    ConfiguredDecision(CONFIGURED, tx, ctx);
  }

  lemma JoinedBySave(p: Pipe, tx: Tx, ctx: AccountContext, now: nat, r: AccountId, n: nat)
    requires ApprovedSenders(Events(p.wal), r) == Payers(n) && tx.to == r && tx.from == Payer(n)
    requires Decide(tx, ctx) == APPROVED
    ensures var q := OnSave(p, EventFor(tx, ctx, now), now);
      ApprovedSenders(Events(q.wal), r) == Payers(n + 1) && q.history == p.history
  {
    hide Decide, Results, ApprovedSenders, Events, OnSave, Payers;
    var event := EventFor(tx, ctx, now);
    EventsOfSave(p, event, now);
    SaveKeepsHistory(p, event, now);
    ApprovedSnoc(Events(p.wal), event, r);
    PayersGrow(n);
  }

  // --- One after the other, up to the limit ---------------------------------------------------

  // Where the uninterrupted evaluation ends, as far as it matters here.
  lemma SoloShape(s: State, r: AccountId, n: nat)
    requires Free(s, 0, Payment(n, r))
    requires StatusAt(s, Payment(n, r)) == APPROVED
    ensures var tx := Payment(n, r); var t := After(s, 0, tx, Cachedly);
      && t.pipe == OnSave(s.pipe, EventAt(s, tx), s.now) && t.locks == s.locks && t.book == s.book[KeyOf(tx) := tx]
      && RecvOf(t, r).senders == RecvOf(s, r).senders + {Payer(n)}
      && (forall a | a != Payer(n) :: AcctOf(t, a) == AcctOf(s, a))
      && PcOf(t, 0).Idle? && forall e | e != 0 :: PcOf(t, e) == PcOf(s, e)
  {
    hide StatusAt, AcctAt, ReadOf, EventAt, OnSave, OnAdd, OnClose, Payer;
  }

  lemma SoloJoins(s: State, r: AccountId, n: nat)
    requires Unseen(s, n) && Joined(s, r, n, n) && PcOf(s, 0).Idle? && n < MAX_COUNTERPARTIES
    ensures var t := Steps(s, SoloActions(0, Payment(n, r), Cachedly));
      Unseen(t, n + 1) && Joined(t, r, n + 1, n + 1) && PcOf(t, 0).Idle?
      && forall e | e != 0 :: PcOf(t, e) == PcOf(s, e)
  {
    hide Steps, SoloActions, After, ContextAt, ReadOf, Decide, OnSave, Joined, Light, Free, AcctOf, RecvOf, PcOf, Payer,
      Payers;
    var tx := Payment(n, r);
    SetOf(s, r, n, n);
    NewcomerReads(s, r, n, n);
    SoloEnds(s, 0, tx, Cachedly);
    LightApproves(tx, ContextAt(s, tx), n);
    SoloShape(s, r, n);
    JoinedBySave(s.pipe, tx, ContextAt(s, tx), s.now, r, n);
    PayersGrow(n);
    var t := After(s, 0, tx, Cachedly);
    JoinedFrom(t, r, n + 1, n + 1);
    forall i: nat | n + 1 <= i ensures AcctOf(t, Payer(i)) == NEW && Payer(i) !in t.locks {
      Distinct(n, i);
    }
  }

  lemma Distinct(n: nat, i: nat)
    ensures Payer(n) == Payer(i) ==> n == i
  {
    assert |Payer(n)| == n && |Payer(i)| == i;
  }

  lemma SetOf(s: State, r: AccountId, k: nat, n: nat)
    requires Joined(s, r, k, n)
    ensures RecvOf(s, r).senders == Payers(k) && ApprovedSenders(Events(s.pipe.wal), r) == Payers(n)
  {
  }

  lemma JoinedFrom(s: State, r: AccountId, k: nat, n: nat)
    requires RecvOf(s, r).senders == Payers(k) && ApprovedSenders(Events(s.pipe.wal), r) == Payers(n)
    ensures Joined(s, r, k, n)
  {
  }

  // --- Side by side beyond it --------------------------------------------------------------------

  // The evaluator has counted as many senders as the limit allows, and is about to commit.
  ghost predicate Waits(s: State, r: AccountId, e: nat) {
    PcOf(s, e).Ready? && PcOf(s, e).tx == Payment(MAX_COUNTERPARTIES + e, r)
    && Light(PcOf(s, e).ctx, MAX_COUNTERPARTIES)
  }

  function CountActions(e: nat, tx: Tx): seq<Action> { [TryLock(e, tx), ReadVolume(e), CountSenders(e), FetchStats(e)] }

  lemma CountEnds(s: State, e: nat, tx: Tx)
    requires Free(s, e, tx)
    ensures Steps(s, CountActions(e, tx)) ==
            Inside(s, e, tx, Ready(tx, ReadOf(s, tx).1, ContextAt(s, tx)), ReadOf(s, tx).0)
  {
    hide Step, Inside, OnRead, ContextFor;
    var q := CountActions(e, tx);
    assert q[..3][..2] == q[..2] && q[..2][..1] == q[..1] && q[..1][..0] == [];
    ReadStep(s, e, tx);
    ContextSteps(s, e, tx, ReadOf(s, tx).1, ReadOf(s, tx).0);
    assert Steps(s, q[..1]) == Step(s, TryLock(e, tx));
    assert Steps(s, q[..2]) == Step(Steps(s, q[..1]), ReadVolume(e));
    assert Steps(s, q[..3]) == Step(Steps(s, q[..2]), CountSenders(e));
  }

  lemma QueueOn(s: State, r: AccountId, w: nat)
    requires Unseen(s, MAX_COUNTERPARTIES + w) && Joined(s, r, MAX_COUNTERPARTIES, MAX_COUNTERPARTIES)
    requires PcOf(s, w).Idle?
    ensures var t := Steps(s, CountActions(w, Payment(MAX_COUNTERPARTIES + w, r)));
      && Unseen(t, MAX_COUNTERPARTIES + w + 1) && Joined(t, r, MAX_COUNTERPARTIES, MAX_COUNTERPARTIES)
      && Waits(t, r, w) && forall e | e != w :: PcOf(t, e) == PcOf(s, e)
  {
    hide Steps, CountActions, ContextAt, ReadOf, Joined, Light, Payer;
    var n := MAX_COUNTERPARTIES + w;
    var tx := Payment(n, r);
    SetOf(s, r, MAX_COUNTERPARTIES, MAX_COUNTERPARTIES);
    NewcomerReads(s, r, n, MAX_COUNTERPARTIES);
    CountEnds(s, w, tx);
    var t := Inside(s, w, tx, Ready(tx, ReadOf(s, tx).1, ContextAt(s, tx)), ReadOf(s, tx).0);
    JoinedFrom(t, r, MAX_COUNTERPARTIES, MAX_COUNTERPARTIES);
    forall i: nat | n + 1 <= i ensures AcctOf(t, Payer(i)) == NEW && Payer(i) !in t.locks {
      Distinct(n, i);
    }
  }

  lemma CommitOn(s: State, r: AccountId, d: nat)
    requires Waits(s, r, d) && Joined(s, r, MAX_COUNTERPARTIES, MAX_COUNTERPARTIES + d)
    ensures var t := Step(s, Commit(d));
      Joined(t, r, MAX_COUNTERPARTIES, MAX_COUNTERPARTIES + d + 1) && forall e | e != d :: PcOf(t, e) == PcOf(s, e)
  {
    hide Decide, Results, OnSave, OnCommit, Joined, Light, Payers, Payer;
    var pc := PcOf(s, d);
    SetOf(s, r, MAX_COUNTERPARTIES, MAX_COUNTERPARTIES + d);
    LightApproves(pc.tx, pc.ctx, MAX_COUNTERPARTIES);
    JoinedBySave(s.pipe, pc.tx, pc.ctx, s.now, r, MAX_COUNTERPARTIES + d);
    JoinedFrom(Step(s, Commit(d)), r, MAX_COUNTERPARTIES, MAX_COUNTERPARTIES + d + 1);
  }

  // --- The run ---------------------------------------------------------------------------------------

  function Joins(r: AccountId, n: nat): seq<Action> {
    if n == 0 then [] else Joins(r, n - 1) + SoloActions(0, Payment(n - 1, r), Cachedly)
  }

  function Queues(r: AccountId, w: nat): seq<Action> {
    if w == 0 then Joins(r, MAX_COUNTERPARTIES)
    else Queues(r, w - 1) + CountActions(w - 1, Payment(MAX_COUNTERPARTIES + w - 1, r))
  }

  function Commits(r: AccountId, w: nat, d: nat): seq<Action> {
    if d == 0 then Queues(r, w) else Commits(r, w, d - 1) + [Commit(d - 1)]
  }

  lemma {:induction false} JoinsRun(r: AccountId, n: nat)
    requires n <= MAX_COUNTERPARTIES
    ensures var s := Run(Joins(r, n)); Unseen(s, n) && Joined(s, r, n, n) && forall e :: PcOf(s, e).Idle?
  {
    hide Run, Steps, Unseen, Joined, SoloActions;
    if n == 0 {
      NobodyYet(r);
    } else {
      JoinsRun(r, n - 1);
      RunSteps(Joins(r, n - 1), SoloActions(0, Payment(n - 1, r), Cachedly));
      SoloJoins(Run(Joins(r, n - 1)), r, n - 1);
    }
  }

  lemma NobodyYet(r: AccountId)
    ensures Run([]) == BOOT && Unseen(BOOT, 0) && Joined(BOOT, r, 0, 0)
  {
  }

  lemma StillWaits(s: State, t: State, r: AccountId, d: nat, w: int)
    requires forall e | d <= e < w :: Waits(s, r, e) && PcOf(t, e) == PcOf(s, e)
    ensures forall e | d <= e < w :: Waits(t, r, e)
  {
    hide Light;
    forall e | d <= e < w ensures Waits(t, r, e) {
      assert Waits(s, r, e);
    }
  }

  lemma {:induction false} QueuesRun(r: AccountId, w: nat)
    ensures var s := Run(Queues(r, w));
      && Unseen(s, MAX_COUNTERPARTIES + w) && Joined(s, r, MAX_COUNTERPARTIES, MAX_COUNTERPARTIES)
      && (forall e | 0 <= e < w :: Waits(s, r, e)) && forall e | w <= e :: PcOf(s, e).Idle?
  {
    hide Run, Steps, Unseen, Joined, CountActions, Light;
    if w == 0 {
      JoinsRun(r, MAX_COUNTERPARTIES);
    } else {
      QueuesRun(r, w - 1);
      RunSteps(Queues(r, w - 1), CountActions(w - 1, Payment(MAX_COUNTERPARTIES + w - 1, r)));
      QueueOn(Run(Queues(r, w - 1)), r, w - 1);
      StillWaits(Run(Queues(r, w - 1)), Run(Queues(r, w)), r, 0, w - 1);
    }
  }

  lemma {:induction false} CommitsRun(r: AccountId, w: nat, d: nat)
    requires d <= w
    ensures var s := Run(Commits(r, w, d));
      Joined(s, r, MAX_COUNTERPARTIES, MAX_COUNTERPARTIES + d) && forall e | d <= e < w :: Waits(s, r, e)
  {
    hide Run, Steps, Step, Unseen, Joined, Light;
    if d == 0 {
      QueuesRun(r, w);
    } else {
      CommitsRun(r, w, d - 1);
      RunSteps(Commits(r, w, d - 1), [Commit(d - 1)]);
      OneStep(Run(Commits(r, w, d - 1)), Commit(d - 1));
      CommitOn(Run(Commits(r, w, d - 1)), r, d - 1);
      StillWaits(Run(Commits(r, w, d - 1)), Run(Commits(r, w, d)), r, d, w);
    }
  }

  lemma OneStep(s: State, x: Action)
    ensures Steps(s, [x]) == Step(s, x)
  {
    assert [x][..0] == [];
  }

  // --- Nobody else is at work -------------------------------------------------------------------------

  // Nothing fails or expires, and only the first `cap` evaluators take a lock.
  predicate Plainly(x: Action, cap: nat) {
    && (x.TryLock? ==> x.e < cap)
    && (x.TryLock? || x.ReadVolume? || x.CountSenders? || x.FetchStats? || x.Commit? || x.AddVolume? || x.AddSender?
        || x.Unlock?)
  }

  predicate AllPlainly(q: seq<Action>, cap: nat) { forall x | x in q :: Plainly(x, cap) }

  lemma {:induction false} JoinsPlainly(r: AccountId, n: nat, cap: nat)
    requires cap >= 1
    ensures AllPlainly(Joins(r, n), cap)
  {
    if n > 0 {
      JoinsPlainly(r, n - 1, cap);
    }
  }

  lemma {:induction false} CommitsPlainly(r: AccountId, w: nat, d: nat, cap: nat)
    requires 1 <= cap && w <= cap
    ensures AllPlainly(Commits(r, w, d), cap)
    decreases w + d
  {
    if d > 0 {
      CommitsPlainly(r, w, d - 1, cap);
    } else if w > 0 {
      CommitsPlainly(r, w - 1, 0, cap);
    } else {
      JoinsPlainly(r, MAX_COUNTERPARTIES, cap);
    }
  }

  lemma EvaluatorsByStep(s: State, x: Action, cap: nat)
    requires Plainly(x, cap)
    ensures Step(s, x).evals.Keys <= s.evals.Keys + if x.TryLock? then {x.e} else {}
  {
    hide OnRead, ContextFor, OnCommit, OnSave, Decide, OnApprove, OnAdd, OnAddSender, OnClose, AcctOf, RecvOf;
  }

  lemma {:induction false} FewEvaluators(actions: seq<Action>, cap: nat)
    requires AllPlainly(actions, cap)
    ensures forall e | e in Run(actions).evals :: e < cap
  {
    hide Step;
    if actions != [] {
      var n := |actions| - 1;
      assert actions[n] in actions && forall x | x in actions[..n] :: x in actions;
      FewEvaluators(actions[..n], cap);
      EvaluatorsByStep(Run(actions[..n]), actions[n], cap);
    }
  }

  function Below(n: nat): set<nat> { if n == 0 then {} else Below(n - 1) + {n - 1} }

  lemma {:induction false} BelowIs(n: nat)
    ensures |Below(n)| == n && forall e: nat :: e in Below(n) <==> e < n
  {
    if n > 0 {
      BelowIs(n - 1);
      assert n - 1 !in Below(n - 1) && Below(n) == Below(n - 1) + {n - 1};
    }
  }

  lemma PlainlyInFlight(actions: seq<Action>, r: AccountId, cap: nat)
    requires AllPlainly(actions, cap)
    ensures AtMostInFlight(actions, r, cap)
  {
    hide Run, Below;
    BelowIs(cap);
    forall n | 0 <= n <= |actions| ensures |InFlight(Run(actions[..n]).evals, r)| <= cap {
      FewEvaluators(actions[..n], cap);
      Subset(InFlight(Run(actions[..n]).evals, r), Below(cap));
    }
  }

  // For every `cap` of at least one: a run with at most so many evaluations in flight, in which nothing fails and
  // nothing is lost or expires, and exactly 10 + cap senders are approved.
  lemma OvershootAttained(r: AccountId, cap: nat)
    requires cap >= 1
    ensures exists actions: seq<Action> ::
      && AtMostInFlight(actions, r, cap) && SendersReliable(actions)
      && (forall x: Action | x in actions :: !x.ExpireSenders?)
      && |ApprovedSenders(Events(Run(actions).pipe.wal), r)| == MAX_COUNTERPARTIES + cap
  {
    hide Run, AtMostInFlight, Payers, ApprovedSenders, Events;
    var actions := Commits(r, cap, cap);
    CommitsRun(r, cap, cap);
    CommitsPlainly(r, cap, cap, cap);
    PlainlyInFlight(actions, r, cap);
    PayersGrow(MAX_COUNTERPARTIES + cap);
  }
}
