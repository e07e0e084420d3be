/** What a run leaves on record: the statistics an evaluation is decided on, the verdict of each rule, and the audit
    rows that state them. */
module Outcomes {
  import opened Domain
  import opened Verdict
  import opened Rules
  import opened Sums
  import opened History
  import opened Context
  import opened Pipeline
  import opened Convergence
  import opened Statistics
  import opened Machine
  import opened Interleaving
  import opened Effects
  import opened Pacing
  import opened Solo
  import opened Overshoot
  import opened Guarantees
  import A = Account

  // --- Statistics ---------------------------------------------------------------------------

  // From any reachable state the window sums of the drained table count every committed transaction once, by kind.
  lemma DrainedStatistics(actions: seq<Action>, a: AccountId, once: seq<Tx>, lo: int, hi: int)
    requires EachOnce(once, a, Log(Run(actions)))
    ensures Sound(Run(actions).pipe)
    ensures var h := Drain(Run(actions).pipe).history; var stats := FetchGroupedStats(h, a, lo, hi);
      && SumAmount(h, a, lo, hi) == Within(once, lo, hi) == GroupTotal(stats)
      && GroupP2p(stats) == Total(Chosen(once, true, lo, hi))
      && CountInWindow(h, a, lo, hi) == GroupCount(stats)
         == |Chosen(once, false, lo, hi)| + |Chosen(once, true, lo, hi)|
  {
    hide Run, Sound, EachOnce, HistoryIs, AuditIs, Holds, Records, Lists, Chosen;
    EventuallyConsistent(actions);
    var s := Run(actions);
    var h := Drain(s.pipe).history;
    OnceIsListed(h, Log(s), a, once);
    StatsOfList(h, a, once, lo, hi);
    GroupsAreRaw(h, a, lo, hi);
  }

  // The context an evaluation is decided on, from the transactions behind the history rows of that moment: they
  // are committed ones, the account is dormant exactly if nothing is cached and none of them lies in the 30 days
  // before the candidate, and the P2P rule's ratio exceeds 0.80 exactly if more than four fifths of their amount
  // is P2P.
  lemma StatisticsInRun(actions: seq<Action>, e: nat)
    requires PcOf(Run(actions), e).Counted?
    ensures var s := Run(actions); var pc := PcOf(s, e); var a, t := pc.tx.from, pc.tx.createdAt;
      var after, lo := PcOf(OnFetchStats(s, e), e), t - 2_592_000_000;
      && (exists once: seq<Tx> :: Lists(once, a, s.pipe.history) && forall u | u in once :: u in TxsOf(Log(s), a))
      && after.Ready? && after.ctx.volume24h == pc.m.volume && after.ctx.txCount24h == pc.m.count
      && after.ctx.uniqueCounterparties24h == pc.senders
      && forall once: seq<Tx> | Lists(once, a, s.pipe.history) ::
           && (after.ctx.isDormantAccount <==>
               pc.m.count == 0 && forall u | u in once :: !(lo <= u.createdAt <= t))
           && (after.ctx.p2pRatio30d > 0.80 <==>
               5 * Total(Chosen(once, true, lo, t)) > 4 * Within(once, lo, t))
  {
    hide Run, Sound, AllGood, Mutex, Informed, Booked, Backed, Lists, Chosen, FetchGroupedStats, ContextOf, TxsOf;
    var s := Run(actions);
    var pc := PcOf(s, e);
    var a, t := pc.tx.from, pc.tx.createdAt;
    EveryRun(actions);
    HistoryBacked(s, a);
    assert LinkedTo(AcctOf(s, a), Log(s), a);
    ListExists(s.pipe.history, a, AcctOf(s, a).txs);
    forall once: seq<Tx> | Lists(once, a, s.pipe.history)
      ensures var ctx := ContextFor(pc.tx, pc.m, pc.senders, s.pipe.history);
        && (ctx.isDormantAccount <==>
            pc.m.count == 0 && forall u | u in once :: !(t - 2_592_000_000 <= u.createdAt <= t))
        && (ctx.p2pRatio30d > 0.80 <==>
            5 * Total(Chosen(once, true, t - 2_592_000_000, t)) > 4 * Within(once, t - 2_592_000_000, t))
    {
      ContextOfList(s.pipe.history, a, once, t - 2_592_000_000, t, pc.m.volume, pc.m.count, pc.senders);
    }
    ContextShows(pc.tx, pc.m, pc.senders, s.pipe.history);
  }

  lemma ContextShows(tx: Tx, m: A.Metrics, senders: nat, h: Table)
    ensures var ctx := ContextFor(tx, m, senders, h);
      ctx.volume24h == m.volume && ctx.txCount24h == m.count && ctx.uniqueCounterparties24h == senders
  {
    hide FetchGroupedStats;
  }

  // --- Audit rows ----------------------------------------------------------------------------

  lemma {:induction false} LogGrows(actions: seq<Action>, more: seq<Action>, event: Event)
    requires event in Log(Run(actions))
    ensures event in Log(Run(actions + more))
  {
    hide Step, Events;
    if more == [] {
      assert actions + more == actions;
    } else {
      var n := |more| - 1;
      var before := actions + more[..n];
      LogGrows(actions, more[..n], event);
      assert actions + more == before + [more[n]];
      assert (before + [more[n]])[..|before|] == before;
      LogByStep(Run(before), more[n], event);
    }
  }

  lemma LogByStep(s: State, action: Action, event: Event)
    requires event in Log(s)
    ensures event in Log(Step(s, action))
  {
    hide Step, OnCommitStep, Events;
    if action.Commit? {
      CommitIs(s, action.e);
      CommitLogs(s, action.e);
    } else {
      EventsByStep(s, action);
    }
  }

  lemma CommitLogs(s: State, e: nat)
    ensures var pc := PcOf(s, e);
      Log(OnCommitStep(s, e)) == Log(s) + if pc.Ready? then [EventFor(pc.tx, pc.ctx, s.now)] else []
  {
    hide A.OnCommit, OnSave, Results, Events;
    var pc := PcOf(s, e);
    if pc.Ready? {
      EventsOfSave(s.pipe, EventFor(pc.tx, pc.ctx, s.now), s.now);
    }
  }

  // --- Draining -------------------------------------------------------------------------------

  // The relay and consumer steps that drain a pipeline.
  ghost function DrainActions(p: Pipe): seq<Action>
    requires Sound(p)
    decreases Unread(p), Owed(p)
  {
    Progress(p);
    DrainStepsKeep(p);
    if p.pos < |p.wal| then [Background(Relay)] + DrainActions(OnRelay(p))
    else if p.offset < |p.topic| then [Background(Project)] + DrainActions(OnProject(p))
    else []
  }

  lemma {:induction false} DrainSteps(s: State)
    requires Sound(s.pipe)
    ensures Steps(s, DrainActions(s.pipe)) == s.(pipe := Drain(s.pipe))
    ensures forall x | x in DrainActions(s.pipe) :: x.Background?
    decreases Unread(s.pipe), Owed(s.pipe)
  {
    hide Sound, OnRelay, OnProject, Unread, Owed, Step;
    var p := s.pipe;
    Progress(p);
    DrainStepsKeep(p);
    PositionsInRange(p);
    if p.pos < |p.wal| {
      DrainStep(s, Relay);
      DrainSteps(s.(pipe := OnRelay(p)));
      StepsConcat(s, [Background(Relay)], DrainActions(OnRelay(p)));
    } else if p.offset < |p.topic| {
      DrainStep(s, Project);
      DrainSteps(s.(pipe := OnProject(p)));
      StepsConcat(s, [Background(Project)], DrainActions(OnProject(p)));
    }
  }

  lemma DrainStep(s: State, action: PipeAction)
    requires action == Relay || action == Project
    ensures Steps(s, [Background(action)]) ==
            s.(pipe := if action == Relay then OnRelay(s.pipe) else OnProject(s.pipe))
  {
    hide OnRelay, OnProject;
    assert [Background(action)][..0] == [];
  }

  // From every reachable state the run can go on, by relay and consumer steps alone, to the drained tables.
  lemma DrainRuns(actions: seq<Action>)
    ensures Sound(Run(actions).pipe)
    ensures exists more: seq<Action> ::
      && (forall x | x in more :: x.Background?)
      && Run(actions + more) == Run(actions).(pipe := Drain(Run(actions).pipe))
  {
    hide Run, Sound, Steps;
    EventuallyConsistent(actions);
    var more := DrainActions(Run(actions).pipe);
    DrainSteps(Run(actions));
    RunSteps(actions, more);
  }

  // --- The row at the commit ------------------------------------------------------------------

  // The commit stores the transaction with the status, level and score that the four conditions give, keeping an
  // instant that is already stored.
  lemma RowInRun(actions: seq<Action>, d: nat)
    requires PcOf(Run(actions), d).Ready?
    ensures var s, t := Run(actions), Run(actions + [Commit(d)]);
      var tx, m, ctx := PcOf(s, d).tx, PcOf(s, d).m, PcOf(s, d).ctx;
      var hard := ctx.uniqueCounterparties24h > 10 || m.volume + tx.amount > 1_000_000_000;
      var spike, p2p := ctx.isDormantAccount && tx.amount >= 500_000_000, ctx.p2pRatio30d > 0.80;
      && tx.id in t.pipe.rows
      && var row := t.pipe.rows[tx.id];
      && row.tx == (if tx.id in s.pipe.rows then tx.(createdAt := s.pipe.rows[tx.id].tx.createdAt) else tx)
      && row.status == (if hard || (spike && p2p) then FLAGGED else APPROVED)
      && row.level == (if hard then HIGH else if spike || p2p then MEDIUM else LOW)
      && row.score == (if hard then 95 else if spike && p2p then 70 else if spike || p2p then 35 else 0)
  {
    hide Run, AllGood, Mutex, Stored, RowFor, EventFor;
    var s := Run(actions);
    var pc := PcOf(s, d);
    EveryRun(actions);
    RunStep(actions, Commit(d));
    CommitIs(s, d);
    hide Step;
    CommitStores(s, d);
    hide OnCommitStep;
    RowShows(s.pipe.rows, pc.tx, pc.ctx, s.now);
  }

  lemma CommitStores(s: State, d: nat)
    requires PcOf(s, d).Ready?
    ensures var tx, ctx := PcOf(s, d).tx, PcOf(s, d).ctx;
      OnCommitStep(s, d).pipe.rows == s.pipe.rows[tx.id := RowFor(s.pipe.rows, EventFor(tx, ctx, s.now))]
  {
    hide A.OnCommit, Decide, Results, RowFor;
  }

  lemma RowShows(rows: map<nat, TxRow>, tx: Tx, ctx: AccountContext, now: nat)
    ensures var row := RowFor(rows, EventFor(tx, ctx, now));
      var hard := ctx.uniqueCounterparties24h > 10 || ctx.volume24h + tx.amount > 1_000_000_000;
      var spike, p2p := ctx.isDormantAccount && tx.amount >= 500_000_000, ctx.p2pRatio30d > 0.80;
      && row.tx == (if tx.id in rows then tx.(createdAt := rows[tx.id].tx.createdAt) else tx)
      && row.status == (if hard || (spike && p2p) then FLAGGED else APPROVED)
      && row.level == (if hard then HIGH else if spike || p2p then MEDIUM else LOW)
      && row.score == (if hard then 95 else if spike && p2p then 70 else if spike || p2p then 35 else 0)
  {
    hide StatusOf, LevelOf, ScoreOf, RunEngine;
    assert Results(tx, ctx) == RunEngine(CONFIGURED, tx, ctx);
    ConfiguredVerdict(CONFIGURED, tx, ctx);
  }

  // What an audit row should say.
  function AuditRow(flagged: bool, hard: bool): ARow {
    ARow(0, if flagged then RuleFlagged else RulePassed, hard, if !flagged then 0 else if hard then 100 else 50)
  }

  // Once an evaluation commits, whatever happens afterwards, draining leaves one audit row under each rule's code
  // that is flagged exactly on the rule's own condition: on the volume that was read and the amount, on the
  // number of senders, on dormancy and the amount, on the P2P ratio.
  lemma VerdictInRun(actions: seq<Action>, d: nat, more: seq<Action>)
    requires PcOf(Run(actions), d).Ready?
    ensures var s, t := Run(actions), Run(actions + [Commit(d)] + more);
      var tx, m, ctx := PcOf(s, d).tx, PcOf(s, d).m, PcOf(s, d).ctx;
      && Sound(t.pipe)
      && var audit := Drain(t.pipe).audit;
      && Audited(audit, tx.id, s.now, "HARD_COUNTERPARTY_COUNT_EXCEEDED",
                 AuditRow(ctx.uniqueCounterparties24h > 10, true))
      && Audited(audit, tx.id, s.now, "HARD_DAILY_VOLUME_EXCEEDED",
                 AuditRow(m.volume + tx.amount > 1_000_000_000, true))
      && Audited(audit, tx.id, s.now, "BEHAVIOR_DORMANT_ACCOUNT_SPIKE",
                 AuditRow(ctx.isDormantAccount && tx.amount >= 500_000_000, false))
      && Audited(audit, tx.id, s.now, "BEHAVIOR_HIGH_P2P_RATIO", AuditRow(ctx.p2pRatio30d > 0.80, false))
  {
    hide Run, Sound, HistoryIs, AuditIs, Holds, Results, AllGood, Mutex, Stored, Events;
    var s, saved := Run(actions), actions + [Commit(d)];
    var pc := PcOf(s, d);
    var event := EventFor(pc.tx, pc.ctx, s.now);
    EveryRun(actions);
    RunStep(actions, Commit(d));
    CommitIs(s, d);
    CommitLogs(s, d);
    assert event in Log(Run(saved));
    LogGrows(saved, more, event);
    EventuallyConsistent(saved + more);
    ResultsAre(pc.tx, pc.ctx);
    ResultsRecorded(event, Drain(Run(saved + more).pipe).audit, pc.tx, pc.ctx);
  }

  predicate Audited(audit: map<AKey, ARow>, id: nat, at: nat, code: string, row: ARow) {
    AKey(id, at, code) in audit && audit[AKey(id, at, code)] == row
  }

  lemma ResultsRecorded(e: Event, audit: map<AKey, ARow>, tx: Tx, ctx: AccountContext)
    requires e.results == Results(tx, ctx) && forall r | r in e.results :: Records(audit, e, r)
    ensures Audited(audit, e.tx.id, e.evaluatedAt, "HARD_COUNTERPARTY_COUNT_EXCEEDED",
                    AuditRow(ctx.uniqueCounterparties24h > 10, true))
    ensures Audited(audit, e.tx.id, e.evaluatedAt, "HARD_DAILY_VOLUME_EXCEEDED",
                    AuditRow(ctx.volume24h + tx.amount > 1_000_000_000, true))
    ensures Audited(audit, e.tx.id, e.evaluatedAt, "BEHAVIOR_DORMANT_ACCOUNT_SPIKE",
                    AuditRow(ctx.isDormantAccount && tx.amount >= 500_000_000, false))
    ensures Audited(audit, e.tx.id, e.evaluatedAt, "BEHAVIOR_HIGH_P2P_RATIO", AuditRow(ctx.p2pRatio30d > 0.80, false))
  {
    hide Results, Evaluate;
    ResultsAre(tx, ctx);
    var rs := e.results;
    assert rs[0] in rs && rs[1] in rs && rs[2] in rs && rs[3] in rs;
  }

  lemma RunStep(actions: seq<Action>, x: Action)
    ensures Run(actions + [x]) == Step(Run(actions), x)
  {
    hide Step;
    assert (actions + [x])[..|actions|] == actions;
  }
}
