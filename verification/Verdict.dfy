/** From a list of rule results to the status, level and score of a transaction. */
module Verdict {
  import opened Domain

  predicate HasBlock(rs: seq<RuleResult>) {
    exists r :: r in rs && r.status.RuleBlocked?
  }

  predicate HasHardBlock(rs: seq<RuleResult>) {
    exists r :: r in rs && r.status.RuleFlagged? && r.isHard
  }

  function FlaggedCount(rs: seq<RuleResult>): nat {
    if rs == [] then 0 else (if rs[0].status.RuleFlagged? then 1 else 0) + FlaggedCount(rs[1..])
  }

  function StatusOf(rs: seq<RuleResult>): TransactionStatus {
    if HasBlock(rs) then REJECTED
    else if HasHardBlock(rs) || FlaggedCount(rs) >= 2 then FLAGGED
    else APPROVED
  }

  function LevelOf(rs: seq<RuleResult>): RiskLevel {
    if HasBlock(rs) then CRITICAL
    else if HasHardBlock(rs) || FlaggedCount(rs) >= 3 then HIGH
    else if FlaggedCount(rs) > 0 then MEDIUM
    else LOW
  }

  function ScoreOf(rs: seq<RuleResult>): nat {
    if HasBlock(rs) then 100
    else if HasHardBlock(rs) then 95
    else if FlaggedCount(rs) * 35 < 100 then FlaggedCount(rs) * 35
    else 100
  }

  function StatusRank(s: TransactionStatus): nat {
    match s case APPROVED => 0 case FLAGGED => 1 case REJECTED => 2
  }

  function LevelRank(l: RiskLevel): nat {
    match l case LOW => 0 case MEDIUM => 1 case HIGH => 2 case CRITICAL => 3
  }

  // --- The order in which the rules report does not matter ---------------

  function Without<T>(q: seq<T>, i: nat): seq<T>
    requires i < |q|
  {
    q[..i] + q[i + 1..]
  }

  lemma WithoutFacts<T>(q: seq<T>, i: nat)
    requires i < |q|
    ensures |Without(q, i)| == |q| - 1
    ensures multiset(Without(q, i)) == multiset(q) - multiset{q[i]}
    ensures multiset(q) == multiset(Without(q, i)) + multiset{q[i]}
  {
    assert q == q[..i] + [q[i]] + q[i + 1..];
  }

  lemma {:induction false} FlaggedCountConcat(rs: seq<RuleResult>, qs: seq<RuleResult>)
    ensures FlaggedCount(rs + qs) == FlaggedCount(rs) + FlaggedCount(qs)
  {
    if rs == [] {
      assert rs + qs == qs;
    } else {
      assert (rs + qs)[1..] == rs[1..] + qs;
      FlaggedCountConcat(rs[1..], qs);
    }
  }

  lemma FlaggedCountWithout(rs: seq<RuleResult>, i: nat)
    requires i < |rs|
    ensures FlaggedCount(rs) == FlaggedCount(Without(rs, i)) + if rs[i].status.RuleFlagged? then 1 else 0
  {
    FlaggedCountConcat(rs[..i], rs[i + 1..]);
    FlaggedCountConcat(rs[..i], [rs[i]] + rs[i + 1..]);
    assert rs == rs[..i] + ([rs[i]] + rs[i + 1..]);
    assert ([rs[i]] + rs[i + 1..])[1..] == rs[i + 1..];
  }

  lemma {:induction false} FlaggedCountPermutes(rs: seq<RuleResult>, qs: seq<RuleResult>)
    requires multiset(rs) == multiset(qs)
    ensures FlaggedCount(rs) == FlaggedCount(qs)
    decreases |rs|
  {
    if rs == [] {
      assert |multiset(qs)| == 0;
    } else {
      assert rs[0] in multiset(qs);
      var i :| 0 <= i < |qs| && qs[i] == rs[0];
      WithoutFacts(rs, 0);
      WithoutFacts(qs, i);
      FlaggedCountPermutes(Without(rs, 0), Without(qs, i));
      FlaggedCountWithout(rs, 0);
      FlaggedCountWithout(qs, i);
    }
  }

  lemma VerdictPermutes(rs: seq<RuleResult>, qs: seq<RuleResult>)
    requires multiset(rs) == multiset(qs)
    ensures StatusOf(rs) == StatusOf(qs) && LevelOf(rs) == LevelOf(qs) && ScoreOf(rs) == ScoreOf(qs)
  {
    FlaggedCountPermutes(rs, qs);
    assert forall r :: r in rs <==> r in multiset(rs);
    assert forall r :: r in qs <==> r in multiset(qs);
  }

  // --- What the verdict says of the results -------------------------------

  // The places of the flagged results.
  function FlaggedPlaces(rs: seq<RuleResult>): set<nat> {
    set i: nat | i < |rs| && rs[i].status == RuleFlagged
  }

  lemma {:induction false} FlagsCounted(rs: seq<RuleResult>)
    ensures FlaggedCount(rs) == |FlaggedPlaces(rs)|
  {
    if rs != [] {
      var n := |rs| - 1;
      var p := rs[..n];
      FlagsCounted(p);
      FlaggedCountConcat(p, [rs[n]]);
      assert rs == p + [rs[n]] && [rs[n]][1..] == [];
      assert FlaggedPlaces(rs) == FlaggedPlaces(p) + if rs[n].status == RuleFlagged then {n} else {};
    }
  }

  // Blocked rejects, whatever else was reported; a hard flag or two flags are flagged; and so on, with the
  // levels and scores in figures.
  lemma VerdictExactly(rs: seq<RuleResult>)
    ensures var blocked := exists i :: 0 <= i < |rs| && rs[i].status == RuleBlocked;
      var hard := exists i :: 0 <= i < |rs| && rs[i].status == RuleFlagged && rs[i].isHard;
      var n := |set i: nat | i < |rs| && rs[i].status == RuleFlagged|;
      && StatusOf(rs) == (if blocked then REJECTED else if hard || n >= 2 then FLAGGED else APPROVED)
      && LevelOf(rs) == (if blocked then CRITICAL else if hard || n >= 3 then HIGH else if n > 0 then MEDIUM else LOW)
      && ScoreOf(rs) == (if blocked then 100 else if hard then 95 else if n >= 3 then 100 else 35 * n)
  {
    FlagsCounted(rs);
    assert HasBlock(rs) <==> exists i :: 0 <= i < |rs| && rs[i].status == RuleBlocked;
    assert HasHardBlock(rs) <==> exists i :: 0 <= i < |rs| && rs[i].status == RuleFlagged && rs[i].isHard;
  }

  // --- Status, level and score agree ------------------------------------

  lemma {:induction false} HardIsCounted(rs: seq<RuleResult>, r: RuleResult)
    requires r in rs && r.status.RuleFlagged?
    ensures FlaggedCount(rs) >= 1
  {
    if rs[0] != r {
      HardIsCounted(rs[1..], r);
    }
  }

  // The three outputs carry one consistent verdict: each status and each level fixes the
  // band the score lies in, and the status is determined by level and score together.
  lemma VerdictConsistent(rs: seq<RuleResult>)
    ensures ScoreOf(rs) <= 100
    ensures StatusOf(rs) == REJECTED <==> LevelOf(rs) == CRITICAL
    ensures StatusOf(rs) == APPROVED <==> ScoreOf(rs) <= 35
    ensures LevelOf(rs) == LOW <==> ScoreOf(rs) == 0
    ensures LevelOf(rs) == MEDIUM <==> ScoreOf(rs) in {35, 70}
    ensures LevelOf(rs) == HIGH ==> ScoreOf(rs) in {95, 100} && StatusOf(rs) == FLAGGED
    ensures StatusOf(rs) == FLAGGED <==> LevelOf(rs) == HIGH || ScoreOf(rs) == 70
  {
    if r :| r in rs && r.status.RuleFlagged? && r.isHard {
      HardIsCounted(rs, r);
    }
  }

  // --- More evidence never softens the verdict ---------------------------

  lemma AppendFacts(rs: seq<RuleResult>, more: seq<RuleResult>)
    ensures HasBlock(rs + more) <==> HasBlock(rs) || HasBlock(more)
    ensures HasHardBlock(rs + more) <==> HasHardBlock(rs) || HasHardBlock(more)
    ensures FlaggedCount(rs + more) == FlaggedCount(rs) + FlaggedCount(more)
  {
    FlaggedCountConcat(rs, more);
    assert forall r :: r in rs + more <==> r in rs || r in more;
  }

  lemma AppendNeverSoftens(rs: seq<RuleResult>, more: seq<RuleResult>)
    ensures StatusRank(StatusOf(rs)) <= StatusRank(StatusOf(rs + more))
    ensures LevelRank(LevelOf(rs)) <= LevelRank(LevelOf(rs + more))
  {
    AppendFacts(rs, more);
  }

  // The score is not monotone: three soft flags already score 100, and a hard flag on top
  // of them brings the score down to 95. This is the only way it can drop.
  lemma ScoreDropsExactly(rs: seq<RuleResult>, more: seq<RuleResult>)
    ensures ScoreOf(rs + more) < ScoreOf(rs) <==>
            && FlaggedCount(rs) >= 3 && !HasBlock(rs) && !HasHardBlock(rs)
            && HasHardBlock(more) && !HasBlock(more)
  {
    AppendFacts(rs, more);
  }

  lemma ScoreCanDrop()
    ensures exists rs, more :: ScoreOf(rs + more) < ScoreOf(rs)
  {
    var soft := RuleResult("S", 0, RuleFlagged, false);
    var hard := RuleResult("H", 0, RuleFlagged, true);
    var rs, more := [soft, soft, soft], [hard];
    assert hard in more;
    assert rs[1..] == [soft, soft] && rs[1..][1..] == [soft];
    assert FlaggedCount(rs) == 1 + FlaggedCount(rs[1..]) == 2 + FlaggedCount(rs[1..][1..]) == 3;
    ScoreDropsExactly(rs, more);
    assert ScoreOf(rs + more) < ScoreOf(rs);
  }
}
