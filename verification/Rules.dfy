/** The four rules, the engine that runs them in priority order, and what the configured set can decide. */
module Rules {
  import opened Domain
  import opened Verdict

  datatype Rule = CounterpartyCount | DailyVolumeLimit | DormantAccountSpike | P2pUtilizationRatio

  function Code(rule: Rule): string {
    match rule
    case CounterpartyCount => "HARD_COUNTERPARTY_COUNT_EXCEEDED"
    case DailyVolumeLimit => "HARD_DAILY_VOLUME_EXCEEDED"
    case DormantAccountSpike => "BEHAVIOR_DORMANT_ACCOUNT_SPIKE"
    case P2pUtilizationRatio => "BEHAVIOR_HIGH_P2P_RATIO"
  }

  function Priority(rule: Rule): nat {
    match rule
    case CounterpartyCount => 1
    case DailyVolumeLimit => 1
    case DormantAccountSpike => 2
    case P2pUtilizationRatio => 2
  }

  predicate Triggers(rule: Rule, tx: Tx, ctx: AccountContext) {
    match rule
    case CounterpartyCount => ctx.uniqueCounterparties24h > MAX_COUNTERPARTIES
    case DailyVolumeLimit => ctx.volume24h + tx.amount > LIMIT
    case DormantAccountSpike => ctx.isDormantAccount && tx.amount >= SPIKE_THRESHOLD
    case P2pUtilizationRatio => ctx.p2pRatio30d > MAX_P2P_RATIO
  }

  function Evaluate(rule: Rule, tx: Tx, ctx: AccountContext): RuleResult {
    RuleResult(
      Code(rule), 0, if Triggers(rule, tx, ctx) then RuleFlagged else RulePassed,
      rule.CounterpartyCount? || rule.DailyVolumeLimit?)
  }

  // --- The engine ---------------------------------------------------------

  function Insert(rule: Rule, sorted: seq<Rule>): seq<Rule> {
    if sorted == [] || Priority(rule) <= Priority(sorted[0]) then [rule] + sorted
    else [sorted[0]] + Insert(rule, sorted[1..])
  }

  // The engine's order: by priority, ties in registration order.
  function Ordered(rules: seq<Rule>): seq<Rule> {
    if rules == [] then [] else Insert(rules[0], Ordered(rules[1..]))
  }

  function EvaluateAll(rules: seq<Rule>, tx: Tx, ctx: AccountContext): seq<RuleResult> {
    seq(|rules|, i requires 0 <= i < |rules| => Evaluate(rules[i], tx, ctx))
  }

  function RunEngine(registered: seq<Rule>, tx: Tx, ctx: AccountContext): seq<RuleResult> {
    EvaluateAll(Ordered(registered), tx, ctx)
  }

  predicate SortedByPriority(rules: seq<Rule>) {
    forall i, j | 0 <= i < j < |rules| :: Priority(rules[i]) <= Priority(rules[j])
  }

  // The rules of one priority, in the order they occur.
  function OfPriority(rules: seq<Rule>, p: nat): seq<Rule> {
    if rules == [] then []
    else (if Priority(rules[0]) == p then [rules[0]] else []) + OfPriority(rules[1..], p)
  }

  lemma {:induction false} InsertKeepsAll(rule: Rule, sorted: seq<Rule>)
    ensures multiset(Insert(rule, sorted)) == multiset{rule} + multiset(sorted)
  {
    if sorted != [] {
      assert sorted == [sorted[0]] + sorted[1..];
      if Priority(rule) > Priority(sorted[0]) {
        InsertKeepsAll(rule, sorted[1..]);
      }
    }
  }

  lemma {:induction false} InsertSorts(rule: Rule, sorted: seq<Rule>)
    requires SortedByPriority(sorted)
    ensures SortedByPriority(Insert(rule, sorted))
  {
    if sorted != [] && Priority(rule) > Priority(sorted[0]) {
      InsertSorts(rule, sorted[1..]);
      InsertAtLeast(rule, sorted[1..], Priority(sorted[0]));
    }
  }

  lemma {:induction false} InsertAtLeast(rule: Rule, sorted: seq<Rule>, p: nat)
    requires p <= Priority(rule) && forall i | 0 <= i < |sorted| :: p <= Priority(sorted[i])
    ensures forall i | 0 <= i < |Insert(rule, sorted)| :: p <= Priority(Insert(rule, sorted)[i])
  {
    if sorted != [] && Priority(rule) > Priority(sorted[0]) {
      InsertAtLeast(rule, sorted[1..], p);
    }
  }

  lemma OfPriorityCons(rule: Rule, rules: seq<Rule>, p: nat)
    ensures OfPriority([rule] + rules, p) == (if Priority(rule) == p then [rule] else []) + OfPriority(rules, p)
  {
    assert ([rule] + rules)[1..] == rules;
  }

  lemma {:induction false} InsertStable(rule: Rule, sorted: seq<Rule>, p: nat)
    requires SortedByPriority(sorted)
    ensures OfPriority(Insert(rule, sorted), p) == (if Priority(rule) == p then [rule] else []) + OfPriority(sorted, p)
  {
    if sorted == [] || Priority(rule) <= Priority(sorted[0]) {
      OfPriorityCons(rule, sorted, p);
    } else {
      hide Priority;
      OfPriorityCons(sorted[0], Insert(rule, sorted[1..]), p);
      OfPriorityCons(sorted[0], sorted[1..], p);
      assert sorted == [sorted[0]] + sorted[1..];
      InsertStable(rule, sorted[1..], p);
    }
  }

  // Registration order decides ties, priority decides the rest, and no rule is lost or duplicated.
  lemma {:induction false} EngineOrder(rules: seq<Rule>)
    ensures SortedByPriority(Ordered(rules))
    ensures multiset(Ordered(rules)) == multiset(rules)
    ensures forall p: nat :: OfPriority(Ordered(rules), p) == OfPriority(rules, p)
  {
    if rules != [] {
      EngineOrder(rules[1..]);
      InsertKeepsAll(rules[0], Ordered(rules[1..]));
      InsertSorts(rules[0], Ordered(rules[1..]));
      assert rules == [rules[0]] + rules[1..];
      forall p: nat ensures OfPriority(Ordered(rules), p) == OfPriority(rules, p) {
        InsertStable(rules[0], Ordered(rules[1..]), p);
      }
    }
  }

  // The limits of the two hard rules come before the two behavioural rules.
  function Picked(rules: seq<Rule>, hard: bool): seq<Rule> {
    if rules == [] then []
    else
      (if (rules[0] == CounterpartyCount || rules[0] == DailyVolumeLimit) == hard then [rules[0]] else [])
      + Picked(rules[1..], hard)
  }

  lemma InsertHard(rule: Rule, sorted: seq<Rule>)
    requires rule == CounterpartyCount || rule == DailyVolumeLimit
    ensures Insert(rule, sorted) == [rule] + sorted
  {
  }

  lemma {:induction false} InsertSoft(rule: Rule, hard: seq<Rule>, soft: seq<Rule>)
    requires rule == DormantAccountSpike || rule == P2pUtilizationRatio
    requires forall i | 0 <= i < |hard| :: hard[i] == CounterpartyCount || hard[i] == DailyVolumeLimit
    requires forall i | 0 <= i < |soft| :: soft[i] == DormantAccountSpike || soft[i] == P2pUtilizationRatio
    ensures Insert(rule, hard + soft) == hard + ([rule] + soft)
  {
    if hard == [] {
      assert hard + soft == soft && hard + ([rule] + soft) == [rule] + soft;
    } else {
      var rest := hard[1..];
      assert (hard + soft)[1..] == rest + soft && (hard + soft)[0] == hard[0];
      InsertSoft(rule, rest, soft);
      assert hard == [hard[0]] + rest;
      assert [hard[0]] + (rest + ([rule] + soft)) == hard + ([rule] + soft);
    }
  }

  lemma {:induction false} PickedAre(rules: seq<Rule>)
    ensures var h := Picked(rules, true);
      forall i | 0 <= i < |h| :: h[i] == CounterpartyCount || h[i] == DailyVolumeLimit
    ensures var f := Picked(rules, false);
      forall i | 0 <= i < |f| :: f[i] == DormantAccountSpike || f[i] == P2pUtilizationRatio
    ensures |Picked(rules, true)| == multiset(rules)[CounterpartyCount] + multiset(rules)[DailyVolumeLimit]
    ensures |Picked(rules, false)| == multiset(rules)[DormantAccountSpike] + multiset(rules)[P2pUtilizationRatio]
  {
    if rules != [] {
      PickedAre(rules[1..]);
      assert rules == [rules[0]] + rules[1..];
    }
  }

  lemma PickedCons(rules: seq<Rule>)
    requires rules != []
    ensures var hard := rules[0] == CounterpartyCount || rules[0] == DailyVolumeLimit;
      && Picked(rules, true) == (if hard then [rules[0]] else []) + Picked(rules[1..], true)
      && Picked(rules, false) == (if hard then [] else [rules[0]]) + Picked(rules[1..], false)
  {
  }

  // The engine runs the hard rules first, then the behavioural ones, each group as registered.
  lemma {:induction false} HardFirst(rules: seq<Rule>)
    ensures Ordered(rules) == Picked(rules, true) + Picked(rules, false)
  {
    hide Picked, Insert;
    if rules == [] {
      NothingPicked();
    } else {
      var h, f := Picked(rules[1..], true), Picked(rules[1..], false);
      HardFirst(rules[1..]);
      PickedAre(rules[1..]);
      PickedCons(rules);
      if rules[0] == CounterpartyCount || rules[0] == DailyVolumeLimit {
        InsertHard(rules[0], h + f);
        assert [rules[0]] + (h + f) == ([rules[0]] + h) + f;
      } else {
        InsertSoft(rules[0], h, f);
      }
    }
  }

  lemma NothingPicked()
    ensures Picked([], true) == [] == Picked([], false)
  {
  }

  lemma EvaluateAllWithout(rules: seq<Rule>, i: nat, tx: Tx, ctx: AccountContext)
    requires i < |rules|
    ensures EvaluateAll(Without(rules, i), tx, ctx) == Without(EvaluateAll(rules, tx, ctx), i)
  {
  }

  lemma {:induction false} EvaluateAllPermutes(rs: seq<Rule>, qs: seq<Rule>, tx: Tx, ctx: AccountContext)
    requires multiset(rs) == multiset(qs)
    ensures multiset(EvaluateAll(rs, tx, ctx)) == multiset(EvaluateAll(qs, tx, ctx))
    decreases |rs|
  {
    if rs == [] {
      assert |multiset(qs)| == 0;
    } else {
      assert rs[0] in multiset(qs);
      var i :| 0 <= i < |qs| && qs[i] == rs[0];
      WithoutFacts(rs, 0);
      WithoutFacts(qs, i);
      EvaluateAllPermutes(Without(rs, 0), Without(qs, i), tx, ctx);
      EvaluateAllWithout(rs, 0, tx, ctx);
      EvaluateAllWithout(qs, i, tx, ctx);
      WithoutFacts(EvaluateAll(rs, tx, ctx), 0);
      WithoutFacts(EvaluateAll(qs, tx, ctx), i);
    }
  }

  // --- The configured set -------------------------------------------------

  const CONFIGURED: seq<Rule> := [CounterpartyCount, DailyVolumeLimit, DormantAccountSpike, P2pUtilizationRatio]

  function Results(tx: Tx, ctx: AccountContext): (rs: seq<RuleResult>)
    ensures |rs| == 4
  {
    assert Ordered(CONFIGURED) == CONFIGURED by { ConfiguredIsOrdered(); }
    RunEngine(CONFIGURED, tx, ctx)
  }

  lemma ConfiguredIsOrdered()
    ensures Ordered(CONFIGURED) == CONFIGURED
  {
    assert CONFIGURED[1..] == [DailyVolumeLimit, DormantAccountSpike, P2pUtilizationRatio];
    assert CONFIGURED[1..][1..] == [DormantAccountSpike, P2pUtilizationRatio];
    assert CONFIGURED[1..][1..][1..] == [P2pUtilizationRatio];
    assert Ordered(CONFIGURED[1..][1..][1..]) == [P2pUtilizationRatio];
    assert Ordered(CONFIGURED[1..][1..]) == [DormantAccountSpike, P2pUtilizationRatio];
    assert Ordered(CONFIGURED[1..]) == CONFIGURED[1..];
  }

  lemma ResultsAre(tx: Tx, ctx: AccountContext)
    ensures Results(tx, ctx) ==
            [Evaluate(CounterpartyCount, tx, ctx), Evaluate(DailyVolumeLimit, tx, ctx),
             Evaluate(DormantAccountSpike, tx, ctx), Evaluate(P2pUtilizationRatio, tx, ctx)]
    ensures Results(tx, ctx) == [
              RuleResult("HARD_COUNTERPARTY_COUNT_EXCEEDED", 0,
                         if ctx.uniqueCounterparties24h > 10 then RuleFlagged else RulePassed, true),
              RuleResult("HARD_DAILY_VOLUME_EXCEEDED", 0,
                         if ctx.volume24h + tx.amount > 1_000_000_000 then RuleFlagged else RulePassed, true),
              RuleResult("BEHAVIOR_DORMANT_ACCOUNT_SPIKE", 0,
                         if ctx.isDormantAccount && tx.amount >= 500_000_000 then RuleFlagged else RulePassed, false),
              RuleResult("BEHAVIOR_HIGH_P2P_RATIO", 0,
                         if ctx.p2pRatio30d > 0.80 then RuleFlagged else RulePassed, false)]
    ensures forall i, j | 0 <= i < j < 4 :: Results(tx, ctx)[i].ruleId != Results(tx, ctx)[j].ruleId
  {
    ConfiguredIsOrdered();
    assert Code(CounterpartyCount)[5] == 'C' && Code(DailyVolumeLimit)[5] == 'D';
    assert Code(DormantAccountSpike)[0] == 'B' && Code(DormantAccountSpike)[9] == 'D';
    assert Code(P2pUtilizationRatio)[0] == 'B' && Code(P2pUtilizationRatio)[9] == 'H';
  }

  lemma CountFour(rs: seq<RuleResult>)
    requires |rs| == 4
    ensures FlaggedCount(rs) ==
            (if rs[0].status.RuleFlagged? then 1 else 0) + (if rs[1].status.RuleFlagged? then 1 else 0)
            + (if rs[2].status.RuleFlagged? then 1 else 0) + (if rs[3].status.RuleFlagged? then 1 else 0)
  {
    assert rs[1..][1..] == rs[2..];
    assert rs[2..][1..] == rs[3..];
    assert rs[3..][1..] == [];
    assert FlaggedCount(rs[2..]) == (if rs[2].status.RuleFlagged? then 1 else 0) + FlaggedCount(rs[3..]);
    assert FlaggedCount(rs[1..]) == (if rs[1].status.RuleFlagged? then 1 else 0) + FlaggedCount(rs[2..]);
  }

  lemma ConfiguredFlags(tx: Tx, ctx: AccountContext)
    ensures !HasBlock(Results(tx, ctx))
    ensures HasHardBlock(Results(tx, ctx)) <==>
            ctx.uniqueCounterparties24h > 10 || ctx.volume24h + tx.amount > 1_000_000_000
    ensures !HasHardBlock(Results(tx, ctx)) ==>
              (FlaggedCount(Results(tx, ctx)) ==
               (if ctx.isDormantAccount && tx.amount >= 500_000_000 then 1 else 0)
               + (if ctx.p2pRatio30d > 0.80 then 1 else 0))
  {
    ResultsAre(tx, ctx);
    var rs := Results(tx, ctx);
    CountFour(rs);
    assert rs[0] in rs && rs[1] in rs;
  }

  // What each rule reports, under its code, on its own condition, in whatever order the rules were registered.
  lemma RuleReports(registered: seq<Rule>, tx: Tx, ctx: AccountContext)
    requires multiset(registered) ==
             multiset{CounterpartyCount, DailyVolumeLimit, DormantAccountSpike, P2pUtilizationRatio}
    ensures multiset(RunEngine(registered, tx, ctx)) == multiset{
        RuleResult("HARD_COUNTERPARTY_COUNT_EXCEEDED", 0,
                   if ctx.uniqueCounterparties24h > 10 then RuleFlagged else RulePassed, true),
        RuleResult("HARD_DAILY_VOLUME_EXCEEDED", 0,
                   if ctx.volume24h + tx.amount > 1_000_000_000 then RuleFlagged else RulePassed, true),
        RuleResult("BEHAVIOR_DORMANT_ACCOUNT_SPIKE", 0,
                   if ctx.isDormantAccount && tx.amount >= 500_000_000 then RuleFlagged else RulePassed, false),
        RuleResult("BEHAVIOR_HIGH_P2P_RATIO", 0,
                   if ctx.p2pRatio30d > 0.80 then RuleFlagged else RulePassed, false)}
    ensures var rs := RunEngine(registered, tx, ctx);
      |rs| == 4 && rs[0].isHard && rs[1].isHard && !rs[2].isHard && !rs[3].isHard
  {
    hide Ordered, Evaluate;
    EngineOrder(registered);
    ConfiguredIsOrdered();
    EvaluateAllPermutes(Ordered(registered), CONFIGURED, tx, ctx);
    ResultsAre(tx, ctx);
    TwoAndTwo(registered);
    var q := Ordered(registered);
    assert forall i | 0 <= i < 4 :: RunEngine(registered, tx, ctx)[i] == Evaluate(q[i], tx, ctx);
    HardnessIs(tx, ctx);
  }

  lemma HardnessIs(tx: Tx, ctx: AccountContext)
    ensures Evaluate(CounterpartyCount, tx, ctx).isHard && Evaluate(DailyVolumeLimit, tx, ctx).isHard
    ensures !Evaluate(DormantAccountSpike, tx, ctx).isHard && !Evaluate(P2pUtilizationRatio, tx, ctx).isHard
  {
  }

  lemma TwoAndTwo(registered: seq<Rule>)
    requires multiset(registered) ==
             multiset{CounterpartyCount, DailyVolumeLimit, DormantAccountSpike, P2pUtilizationRatio}
    ensures var q := Ordered(registered);
      && |q| == 4 && (forall i | 0 <= i < 2 :: q[i] == CounterpartyCount || q[i] == DailyVolumeLimit)
      && forall i | 2 <= i < 4 :: q[i] == DormantAccountSpike || q[i] == P2pUtilizationRatio
  {
    hide Picked, Ordered;
    HardFirst(registered);
    PickedAre(registered);
  }

  // Status, level and score of the configured rules, from the four conditions.
  lemma ConfiguredVerdict(registered: seq<Rule>, tx: Tx, ctx: AccountContext)
    requires multiset(registered) ==
             multiset{CounterpartyCount, DailyVolumeLimit, DormantAccountSpike, P2pUtilizationRatio}
    ensures var rs := RunEngine(registered, tx, ctx);
      var hard := ctx.uniqueCounterparties24h > 10 || ctx.volume24h + tx.amount > 1_000_000_000;
      var spike, p2p := ctx.isDormantAccount && tx.amount >= 500_000_000, ctx.p2pRatio30d > 0.80;
      && StatusOf(rs) == (if hard || (spike && p2p) then FLAGGED else APPROVED)
      && LevelOf(rs) == (if hard then HIGH else if spike || p2p then MEDIUM else LOW)
      && ScoreOf(rs) == (if hard then 95 else if spike && p2p then 70 else if spike || p2p then 35 else 0)
  {
    RegistrationIrrelevant(registered, tx, ctx);
    ConfiguredFlags(tx, ctx);
  }

  lemma RegistrationIrrelevant(registered: seq<Rule>, tx: Tx, ctx: AccountContext)
    requires multiset(registered) == multiset(CONFIGURED)
    ensures StatusOf(RunEngine(registered, tx, ctx)) == StatusOf(Results(tx, ctx))
    ensures LevelOf(RunEngine(registered, tx, ctx)) == LevelOf(Results(tx, ctx))
    ensures ScoreOf(RunEngine(registered, tx, ctx)) == ScoreOf(Results(tx, ctx))
  {
    EngineOrder(registered);
    EngineOrder(CONFIGURED);
    EvaluateAllPermutes(Ordered(registered), Ordered(CONFIGURED), tx, ctx);
    VerdictPermutes(RunEngine(registered, tx, ctx), Results(tx, ctx));
  }

  // Exactly when a transaction is approved, whatever order the rules were registered in.
  // It is never rejected, so the branch that skips the cache never runs with this set.
  lemma ConfiguredDecision(registered: seq<Rule>, tx: Tx, ctx: AccountContext)
    requires multiset(registered) == multiset(CONFIGURED)
    ensures StatusOf(RunEngine(registered, tx, ctx)) != REJECTED
    ensures StatusOf(RunEngine(registered, tx, ctx)) == APPROVED <==>
            && ctx.volume24h + tx.amount <= 100_000 * UNIT
            && ctx.uniqueCounterparties24h <= 10
            && !(ctx.isDormantAccount && tx.amount >= 50_000 * UNIT && ctx.p2pRatio30d > 0.80)
  {
    RegistrationIrrelevant(registered, tx, ctx);
    ConfiguredFlags(tx, ctx);
  }

  // With the configured set at most two soft rules can flag, so appending results never lowers the score.
  lemma ConfiguredScoreMonotone(tx: Tx, ctx: AccountContext, more: seq<RuleResult>)
    ensures ScoreOf(Results(tx, ctx)) <= ScoreOf(Results(tx, ctx) + more)
  {
    ConfiguredFlags(tx, ctx);
    ScoreDropsExactly(Results(tx, ctx), more);
  }
}
