/** Every pattern that hides a transaction from a later one can be run so that a window around the two holds
    twice the limit; and what follows from that. */
module Escapes {
  import opened Domain
  import opened Sums
  import opened History
  import opened Context
  import opened Window
  import opened Account
  import opened Pattern
  import opened Watch
  import opened Limit
  import opened Sandwich
  import opened Serial
  import opened Burst
  import opened Expiry
  import opened Dormancy
  import opened Effects
  import opened Pipeline
  import opened Machine
  import opened Interleaving
  import opened Pacing
  import opened Solo
  import opened Stage
  import opened Performance

  // --- What the set holds, by instants -----------------------------------------------------------

  function Instants(q: seq<Tx>): seq<nat> { seq(|q|, n requires 0 <= n < |q| => q[n].createdAt) }

  lemma {:induction false} InstantsKept(q: seq<Tx>, start: int)
    ensures Instants(Kept(q, start)) == Since(Instants(q), start)
  {
    if q != [] {
      InstantsKept(q[..|q| - 1], start);
      assert Instants(q)[..|q| - 1] == Instants(q[..|q| - 1]);
    }
  }

  lemma InstantsStep(left: seq<Tx>, b: Beat<Tx>)
    ensures Instants(LeftBy(left, b)) == HeldAfter(Instants(left), Mark(b))
  {
    hide Kept, Since;
    if b.Turn? {
      InstantsKept(left, b.of.createdAt - DAY);
    }
  }

  lemma {:induction false} InstantsLeft(q: seq<Beat<Tx>>)
    ensures Instants(Left(q)) == Held(Marks(q))
  {
    hide LeftBy, HeldAfter, Instants;
    if q == [] {
      NoInstants();
    } else {
      var n := |q| - 1;
      InstantsLeft(q[..n]);
      assert Marks(q)[..n] == Marks(q[..n]);
      InstantsStep(Left(q[..n]), q[n]);
    }
  }

  lemma NoInstants()
    ensures Instants([]) == []
  {
  }

  lemma PossibleIsLosable(q: seq<Beat<Tx>>, n: nat)
    requires Possible(Marks(q)) && n < |q|
    ensures Losable(Left(q[..n]), q[n])
  {
    hide Left, Held, Kept, Since;
    assert Marks(q)[..n] == Marks(q[..n]) && Marks(q)[n] == Mark(q[n]);
    assert MayLose(Held(Marks(q)[..n]), Marks(q)[n]);
    InstantsLeft(q[..n]);
    if q[n].Turn? {
      InstantsKept(Left(q[..n]), q[n].of.createdAt - DAY);
    }
  }

  // --- Two full amounts -----------------------------------------------------------------------------

  function Amount(n: nat, i: nat, k: nat): nat { if n == i || n == k then LIMIT else 0 }

  function CastOf(b: Beat<nat>, n: nat, a: AccountId, i: nat, k: nat): Beat<Tx> {
    match b
    case Lapse => Lapse
    case Turn(t, fate, torn) => Turn(Tx(n, a, PEER, Amount(n, i, k), "EUR", "5999", false, t), fate, torn)
  }

  // The pattern, played by new transactions that are worth nothing but for two of the full limit.
  function Cast(p: seq<Beat<nat>>, a: AccountId, i: nat, k: nat): seq<Beat<Tx>> {
    seq(|p|, n requires 0 <= n < |p| => CastOf(p[n], n, a, i, k))
  }

  lemma {:induction false} ZeroTotal(q: seq<Tx>)
    requires forall u | u in q :: u.amount == 0
    ensures Total(q) == 0
  {
    if q != [] {
      ZeroTotal(q[..|q| - 1]);
    }
  }

  // Until the second full amount, the set holds no amount but the first one, and that only until it is hidden.
  ghost predicate Clear(left: seq<Tx>, p: seq<Beat<nat>>, i: nat, n: nat)
    requires i < |p| && p[i].Turn? && n <= |p|
  {
    forall u | u in left && u.amount > 0 :: i < n && !Hides(p, i, n) && u.createdAt == p[i].of
  }

  lemma ClearStep(left: seq<Tx>, p: seq<Beat<nat>>, a: AccountId, i: nat, k: nat, n: nat)
    requires i < k < |p| && p[i].Turn? && n < k && Clear(left, p, i, n)
    ensures Clear(LeftBy(left, CastOf(p[n], n, a, i, k)), p, i, n + 1)
  {
    hide Kept;
    var b := CastOf(p[n], n, a, i, k);
    if b.Turn? {
      KeptMembers(left, b.of.createdAt - DAY);
      forall u | u in LeftBy(left, b) && u.amount > 0
        ensures i < n + 1 && !Hides(p, i, n + 1) && u.createdAt == p[i].of
      {
        assert u in KeptFor(left, b.of) || u == b.of;
      }
    }
  }

  lemma {:induction false} CastIsClear(p: seq<Beat<nat>>, a: AccountId, i: nat, k: nat, n: nat)
    requires i < k < |p| && p[i].Turn? && n <= k
    ensures Clear(Left(Cast(p, a, i, k)[..n]), p, i, n)
  {
    hide LeftBy, Hides;
    if n > 0 {
      var q := Cast(p, a, i, k);
      CastIsClear(p, a, i, k, n - 1);
      assert q[..n][..n - 1] == q[..n - 1] && q[n - 1] == CastOf(p[n - 1], n - 1, a, i, k);
      ClearStep(Left(q[..n - 1]), p, a, i, k, n - 1);
    }
  }

  // So both full amounts pass.
  lemma FullPasses(p: seq<Beat<nat>>, a: AccountId, i: nat, k: nat, n: nat)
    requires i < k < |p| && p[i].Turn? && Hides(p, i, k) && (n == i || n == k) && Commits(p[n])
    ensures var q := Cast(p, a, i, k); Passed(Left(q[..n]), q[n]) == [q[n].of] && q[n].of.amount == LIMIT
  {
    hide Left, Hides, Kept, Total;
    var q := Cast(p, a, i, k);
    CastIsClear(p, a, i, k, n);
    KeptMembers(Left(q[..n]), q[n].of.createdAt - DAY);
    ZeroTotal(KeptFor(Left(q[..n]), q[n].of));
  }

  function Put(n: nat, i: nat, k: nat): nat { (if i < n then LIMIT else 0) + if k < n then LIMIT else 0 }

  lemma PutStep(p: seq<Beat<nat>>, a: AccountId, i: nat, k: nat, lo: int, hi: int, n: nat, log: seq<Tx>)
    requires i < k < |p| && Counts(p[i], lo, hi) && Counts(p[k], lo, hi) && Hides(p, i, k) && n < |p|
    requires Within(log, lo, hi) == Put(n, i, k)
    ensures var q := Cast(p, a, i, k); Within(log + Passed(Left(q[..n]), q[n]), lo, hi) == Put(n + 1, i, k)
  {
    hide Hides, Left, KeptFor, Total;
    var q := Cast(p, a, i, k);
    if n == i || n == k {
      FullPasses(p, a, i, k, n);
    }
    var more := Passed(Left(q[..n]), q[n]);
    if more == [] {
      assert log + more == log;
    } else {
      WithinSnoc(log, q[n].of, lo, hi);
    }
  }

  lemma {:induction false} CastPerforms(p: seq<Beat<nat>>, a: AccountId, i: nat, k: nat, n: nat)
    requires Possible(p) && n <= |p|
    ensures var q := Cast(p, a, i, k)[..n]; var s := Run(Script(a, q));
      Performed(s, a, q) && s.now <= n * (PAUSE + 1)
    ensures n > 0 ==> var q := Cast(p, a, i, k); var s, r := Run(Script(a, q[..n - 1])), Run(Script(a, q[..n]));
      Approved(r, a) == Approved(s, a) + Passed(Left(q[..n - 1]), q[n - 1])
  {
    hide Run, Steps, Performed, Approved, Script, BeatActions, Left, Losable, Possible, Passed;
    var q := Cast(p, a, i, k);
    if n == 0 {
      assert q[..0] == [];
      Starts(a);
    } else {
      var rest, b := q[..n - 1], q[n - 1];
      CastPerforms(p, a, i, k, n - 1);
      assert rest + [b] == q[..n] && Marks(q) == p;
      PossibleIsLosable(q, n - 1);
      ScriptSnoc(a, rest, b);
      RunSteps(Script(a, rest), BeatActions(a, b));
      BeatRuns(Run(Script(a, rest)), a, rest, b);
    }
  }

  lemma {:induction false} CastPuts(p: seq<Beat<nat>>, a: AccountId, i: nat, k: nat, lo: int, hi: int, n: nat)
    requires i < k < |p| && Counts(p[i], lo, hi) && Counts(p[k], lo, hi) && Hides(p, i, k)
    requires Possible(p) && n <= |p|
    ensures Within(Approved(Run(Script(a, Cast(p, a, i, k)[..n])), a), lo, hi) == Put(n, i, k)
  {
    hide Run, Performed, Approved, Script, Left, Hides, Possible, Passed;
    var q := Cast(p, a, i, k);
    if n == 0 {
      assert q[..0] == [];
      Starts(a);
    } else {
      CastPuts(p, a, i, k, lo, hi, n - 1);
      CastPerforms(p, a, i, k, n);
      PutStep(p, a, i, k, lo, hi, n - 1, Approved(Run(Script(a, q[..n - 1])), a));
    }
  }

  // The run follows the pattern, without failures or without expiries if the pattern has none; it takes the
  // lock for no instant but the pattern's.
  ghost predicate Follows(actions: seq<Action>, p: seq<Beat<nat>>, a: AccountId) {
    && Marks(AcctOf(Run(actions), a).beats) == p
    && (Unfailing(p) ==> Reliable(actions)) && (Whole(p) ==> NoExpiry(actions))
    && Run(actions).now <= |p| * (PAUSE + 1)
    && forall e, tx | TryLock(e, tx) in actions :: exists b :: b in p && b.Turn? && b.of == tx.createdAt
  }

  lemma CastFollows(p: seq<Beat<nat>>, a: AccountId, i: nat, k: nat)
    requires Performed(Run(Script(a, Cast(p, a, i, k))), a, Cast(p, a, i, k))
    requires Run(Script(a, Cast(p, a, i, k))).now <= |p| * (PAUSE + 1)
    ensures Follows(Script(a, Cast(p, a, i, k)), p, a)
  {
    hide Run, Script, Standing, Left, Reliable, NoExpiry;
    var q := Cast(p, a, i, k);
    ScriptIs(a, q);
    assert Marks(q) == p;
    assert forall n | 0 <= n < |p| :: p[n] in p && q[n] == CastOf(p[n], n, a, i, k);
    forall e, tx | TryLock(e, tx) in Script(a, q)
      ensures exists b :: b in p && b.Turn? && b.of == tx.createdAt
    {
      var b :| b in q && b.Turn? && b.of == tx;
      assert Mark(b) in p;
    }
  }

  // Every possible pattern is followed by some run.
  lemma PossibleRuns(p: seq<Beat<nat>>, a: AccountId)
    requires Possible(p)
    ensures exists actions :: Follows(actions, p, a)
  {
    hide Run, Possible, Follows, Script, Performed, Passed, Cast;
    CastPerforms(p, a, 0, 0, |p|);
    CastLength(p, a, 0, 0);
    CastFollows(p, a, 0, 0);
  }

  // Wherever a pattern hides a committed turn of a window from a later one, a run follows it that puts exactly
  // twice the limit into that window.
  lemma HiddenEscapes(p: seq<Beat<nat>>, a: AccountId, lo: int, hi: int)
    requires Possible(p) && !NoEscape(p, lo, hi)
    ensures exists actions :: Follows(actions, p, a) && Within(Approved(Run(actions), a), lo, hi) == 2 * LIMIT
  {
    hide Run, Possible, Hides, Follows, Script, Performed, Approved, Passed, Cast;
    var i, k :| 0 <= i < k < |p| && Counts(p[i], lo, hi) && Counts(p[k], lo, hi) && Hides(p, i, k);
    CastPerforms(p, a, i, k, |p|);
    CastPuts(p, a, i, k, lo, hi, |p|);
    CastLength(p, a, i, k);
    CastFollows(p, a, i, k);
  }

  lemma CastLength(p: seq<Beat<nat>>, a: AccountId, i: nat, k: nat)
    ensures Cast(p, a, i, k)[..|p|] == Cast(p, a, i, k)
  {
  }

  // --- Straddling instants ---------------------------------------------------------------------------

  lemma SeenIsTimes(actions: seq<Action>, a: AccountId)
    ensures AcctOf(Run(actions), a).seen == TurnTimes(AcctOf(Run(actions), a).beats)
    ensures forall u | u in AcctOf(Run(actions), a).txs :: HasTurn(AcctOf(Run(actions), a).beats, u)
  {
    hide Run, Safe, Close, Summed, Sighted, EveryWindow, Serialized, Exact, Fresh, CountMeans, Stored, Informed, Mutex,
      HasTurn, LostIn, OverlookedIn, TrimmedIn, TurnTimes;
    EveryRun(actions);
    assert Good(AcctOf(Run(actions), a), Holder(Run(actions), a), a, Run(actions).now);
  }

  // Wherever three instants straddle, a run exists that reads exactly these instants, in which nothing
  // fails or expires, and in which a window of that length holds twice the limit.
  lemma StraddleEscapes(ts: seq<nat>, a: AccountId, span: nat)
    requires !NoStraddle(ts, span)
    ensures exists actions, lo: int, hi: int ::
      && Reliable(actions) && NoExpiry(actions) && AcctOf(Run(actions), a).seen == ts && hi <= lo + span
      && Within(Approved(Run(actions), a), lo, hi) == 2 * LIMIT
  {
    hide Run, NoStraddle, NoEscape, NoEscapeWithin, Possible, Within, Approved, Reliable, NoExpiry, TurnTimes, HasTurn;
    var p := AllEntered(ts);
    LapsesAfterTurns(p);
    if NoEscapeWithin(p, span) {
      StraddleHides(ts, span);
    }
    WindowsOfSpan(p, span);
    var lo: int, hi: int :| hi <= lo + span && !NoEscape(p, lo, hi);
    HiddenEscapes(p, a, lo, hi);
    var actions :| Follows(actions, p, a) && Within(Approved(Run(actions), a), lo, hi) == 2 * LIMIT;
    SeenIsTimes(actions, a);
    TimesOfEntered(AcctOf(Run(actions), a).beats, ts);
  }

  // --- A date ahead of the clock outlives its own entry --------------------------------------------

  const AHEAD: seq<Beat<nat>> := [Turn(5 * DAY, Entered, false), Lapse, Turn(5 * DAY + 1, Entered, false)]

  lemma AheadHides()
    ensures Possible(AHEAD) && Unfailing(AHEAD) && !NoEscape(AHEAD, 4 * DAY + 1, 5 * DAY + 1)
    ensures forall b | b in AHEAD && b.Turn? :: 5 * DAY <= b.of
  {
    LapsesAfterTurns(AHEAD);
    assert Counts(AHEAD[0], 4 * DAY + 1, 5 * DAY + 1) && Counts(AHEAD[2], 4 * DAY + 1, 5 * DAY + 1);
    assert Loses(AHEAD[1]);
    assert Hides(AHEAD, 0, 2);
  }

  // Two transactions dated ahead of the clock, in order, neither at or before an expired deadline, nothing
  // failed: the 24 hours ending at the latest instant still hold twice the limit.
  lemma AheadEscapes(a: AccountId)
    ensures exists actions ::
      && Reliable(actions) && AfterExpiries(actions, a) && Marks(AcctOf(Run(actions), a).beats) == AHEAD
      && Within(Approved(Run(actions), a), 4 * DAY + 1, 5 * DAY + 1) == 2 * LIMIT
  {
    hide Run, AfterExpiries, NoEscape, Possible, Unfailing, Whole, Within, Approved, Reliable, NoExpiry;
    AheadHides();
    HiddenEscapes(AHEAD, a, 4 * DAY + 1, 5 * DAY + 1);
    var actions :| Follows(actions, AHEAD, a)
                   && Within(Approved(Run(actions), a), 4 * DAY + 1, 5 * DAY + 1) == 2 * LIMIT;
    FarAheadIsAfterExpiries(actions, a);
  }

  // --- A delay before the read -----------------------------------------------------------------------

  // The middle instant trims the first one; the last is as old as the delay allows.
  function DelayPattern(span: nat): seq<Beat<nat>> {
    [Turn(0, Entered, false), Turn(DAY + 1, Aborted, false), Turn(span, Entered, false)]
  }

  lemma LagsOn(actions: seq<Action>, x: Action, a: AccountId, lag: nat)
    requires LagsAtMost(actions, a, lag) && x != ExpireVolume(a)
    requires ReadsFor(Run(actions), x, a) ==>
               PcOf(Run(actions), x.e).tx.createdAt <= Run(actions).now <= PcOf(Run(actions), x.e).tx.createdAt + lag
    ensures LagsAtMost(actions + [x], a, lag)
  {
    hide Run, ReadsFor, ExpiresAt, PcOf;
    var q := actions + [x];
    NeverExpires(x, a);
    forall n | 0 <= n < |q| ensures q[..n] == if n < |actions| then actions[..n] else actions {
    }
  }

  lemma NeverExpires(x: Action, a: AccountId)
    requires x != ExpireVolume(a)
    ensures forall s, d: int :: !ExpiresAt(s, x, a, d)
  {
  }

  lemma {:induction false} LagsOnAll(actions: seq<Action>, more: seq<Action>, a: AccountId, lag: nat)
    requires LagsAtMost(actions, a, lag) && forall x | x in more :: x != ExpireVolume(a) && !x.ReadVolume?
    ensures LagsAtMost(actions + more, a, lag)
  {
    hide Run, LagsAtMost;
    if more == [] {
      assert actions + more == actions;
    } else {
      var n := |more| - 1;
      assert more[n] in more && forall x | x in more[..n] :: x in more;
      LagsOnAll(actions, more[..n], a, lag);
      LagsOn(actions + more[..n], more[n], a, lag);
      assert actions + more[..n] + [more[n]] == actions + more;
    }
  }

  lemma FatesDoNotRead(fate: Fate, a: AccountId)
    ensures forall x | x in FateActions(fate) :: x != ExpireVolume(a) && !x.ReadVolume?
  {
  }

  // One more turn, taken by a run whose clock is not too far from its instant.
  lemma TurnLags(actions: seq<Action>, a: AccountId, q: seq<Beat<Tx>>, tx: Tx, fate: Fate, lag: nat)
    requires Performed(Run(actions), a, q) && Numbered(Turn(tx, fate, false), a, |q|)
    requires LagsAtMost(actions, a, lag) && tx.createdAt <= Run(actions).now <= tx.createdAt + lag
    ensures LagsAtMost(actions + BeatActions(a, Turn(tx, fate, false)), a, lag)
  {
    hide Run, Step, LagsAtMost, Standing, Left, FateActions;
    var s, lock, read := Run(actions), [TryLock(0, tx)], [ReadVolume(0)];
    StandsLocked(s, a, AcctOf(s, a), tx);
    StandsAt(Step(s, TryLock(0, tx)), a, Locked(tx), AcctOf(s, a), tx.id + 1);
    RunSteps(actions, lock);
    StepsTwo(s, TryLock(0, tx), TryLock(0, tx));
    LagsOnAll(actions, lock, a, lag);
    LagsOn(actions + lock, ReadVolume(0), a, lag);
    FatesDoNotRead(fate, a);
    LagsOnAll(actions + lock + read, FateActions(fate), a, lag);
    assert actions + lock + read + FateActions(fate) == actions + BeatActions(a, Turn(tx, fate, false));
  }

  lemma TurnOn(actions: seq<Action>, a: AccountId, q: seq<Beat<Tx>>, tx: Tx, fate: Fate, lag: nat)
    requires Performed(Run(actions), a, q) && Numbered(Turn(tx, fate, false), a, |q|)
    requires LagsAtMost(actions, a, lag) && tx.createdAt <= Run(actions).now <= tx.createdAt + lag
    requires Reliable(actions)
    ensures var b := Turn(tx, fate, false); var more := actions + BeatActions(a, b);
      && Performed(Run(more), a, q + [b]) && LagsAtMost(more, a, lag) && Run(more).now == Run(actions).now + Lasts(b)
      && (fate != Omitted ==> Reliable(more))
      && Approved(Run(more), a) == Approved(Run(actions), a) + Passed(Left(q), b)
  {
    hide Run, Steps, Performed, LagsAtMost, Left, BeatActions, Passed, Approved, Reliable;
    var b := Turn(tx, fate, false);
    TurnLags(actions, a, q, tx, fate, lag);
    RunSteps(actions, BeatActions(a, b));
    BeatRuns(Run(actions), a, q, b);
    BeatActionsAre(a, b);
    Conditions(actions, BeatActions(a, b));
  }

  lemma TickOn(actions: seq<Action>, a: AccountId, q: seq<Beat<Tx>>, d: nat, lag: nat)
    requires Performed(Run(actions), a, q) && LagsAtMost(actions, a, lag) && Reliable(actions)
    ensures var more := actions + [Tick(d)];
      && Performed(Run(more), a, q) && LagsAtMost(more, a, lag) && Reliable(more)
      && Run(more).now == Run(actions).now + d && Approved(Run(more), a) == Approved(Run(actions), a)
  {
    hide LagsAtMost, Left, Approved, Reliable;
    LagsOnAll(actions, [Tick(d)], a, lag);
    Conditions(actions, [Tick(d)]);
    assert Reliable([Tick(d)]) by { TickIsReliable(d); }
    RunSteps(actions, [Tick(d)]);
    StepsTwo(Run(actions), Tick(d), Tick(d));
    hide Run, Steps;
    SamePipe(Run(actions), Run(actions + [Tick(d)]), a);
  }

  lemma TickIsReliable(d: nat)
    ensures Reliable([Tick(d)])
  {
  }

  lemma NothingLags(a: AccountId, lag: nat)
    ensures LagsAtMost([], a, lag) && Run([]) == BOOT && BOOT.now == 0
  {
  }

  lemma DelayHides(span: nat)
    requires span <= DAY
    ensures var p := DelayPattern(span); Hides(p, 0, 2) && Commits(p[0]) && Commits(p[2])
  {
    var p := DelayPattern(span);
    assert p[1].Turn? && p[0].of + DAY < p[1].of;
  }

  // If the length and the delay together exceed 24 hours, a run in which no transaction is dated ahead of the
  // clock, nor more than the delay behind it, puts twice the limit into a window of that length.
  lemma DelayEscapes(a: AccountId, lag: nat, span: nat)
    requires span <= DAY < span + lag
    ensures exists actions ::
      Reliable(actions) && LagsAtMost(actions, a, lag) && Within(Approved(Run(actions), a), 0, span) == 2 * LIMIT
  {
    hide Run, Performed, LagsAtMost, Left, BeatActions, Passed, Approved, Reliable, Hides, Within;
    var p := DelayPattern(span);
    var q := Cast(p, a, 0, 2);
    assert q[..0] == [] && q[..0] + [q[0]] == q[..1] && q[..1] + [q[1]] == q[..2];
    DelayHides(span);
    FullPasses(p, a, 0, 2, 0);
    FullPasses(p, a, 0, 2, 2);
    Starts(a);
    NothingLags(a, lag);
    NothingFails();
    TurnOn([], a, [], q[0].of, Entered, lag);
    var first := [] + BeatActions(a, q[0]);
    TickOn(first, a, q[..1], DAY, lag);
    var later := first + [Tick(DAY)];
    TurnOn(later, a, q[..1], q[1].of, Aborted, lag);
    var behind := later + BeatActions(a, q[1]);
    TurnOn(behind, a, q[..2], q[2].of, Entered, lag);
    var actions := behind + BeatActions(a, q[2]);
    NonePassed(Left(q[..1]), q[1]);
    assert Approved(Run(actions), a) == [q[0].of, q[2].of];
    TwoFull(q[0].of, q[2].of, span);
  }

  lemma NonePassed(left: seq<Tx>, b: Beat<Tx>)
    requires !Commits(b)
    ensures Passed(left, b) == []
  {
  }

  lemma TwoFull(x: Tx, y: Tx, span: nat)
    requires x.amount == y.amount == LIMIT && x.createdAt == 0 && y.createdAt == span
    ensures Within([x, y], 0, span) == 2 * LIMIT
  {
    WithinSnoc([], x, 0, span);
    WithinSnoc([] + [x], y, 0, span);
    assert [] + [x] + [y] == [x, y];
  }

  // --- An entry dated after the candidate ---------------------------------------------------------------

  function Worthless(n: nat, a: AccountId, t: nat): Tx { Tx(n, a, PEER, 0, "EUR", "5999", false, t) }

  lemma LaterCounts(x: Tx, t: nat)
    requires x.createdAt > t
    ensures KeptFor([x], Worthless(1, x.from, t)) == [x] && Left([Turn(x, Entered, false)]) == [x]
  {
    assert [x][..0] == [] && Kept([], t - DAY) == [];
  }

  // The account's only committed transaction is dated one millisecond after the candidate: nothing is committed
  // in the candidate's 30 days, and the account is not dormant.
  lemma LaterEntryIsActivity(a: AccountId, t: nat)
    ensures exists actions ::
      var s := Run(actions);
      && Reliable(actions) && NoExpiry(actions)
      && PcOf(s, 0).Counted? && PcOf(s, 0).tx.from == a && PcOf(s, 0).tx.createdAt == t
      && (forall u | u in AcctOf(s, a).txs :: u.createdAt == t + 1)
      && PcOf(OnFetchStats(s, 0), 0).Ready? && !PcOf(OnFetchStats(s, 0), 0).ctx.isDormantAccount
  {
    hide Run, Step, Steps, Standing, Left, BeatActions, OnRead, Reliable, NoExpiry, Plain, HasTurn;
    var x, y := Worthless(0, a, t + 1), Worthless(1, a, t);
    var b := Turn(x, Entered, false);
    var first, more := Script(a, [b]), [TryLock(0, y), ReadVolume(0), CountSenders(0)];
    assert [] + [b] == [b];
    Starts(a);
    ScriptSnoc(a, [], b);
    RunSteps(Script(a, []), BeatActions(a, b));
    BeatRuns(BOOT, a, [], b);
    var s := Run(first);
    LaterIsCounted(s, a, y, x);
    RunSteps(first, more);
    LaterIsReliable(a, b, y);
    SeenIsTimes(first + more, a);
    OnlyTurn(Run(first + more), a, x, y);
  }

  lemma LaterIsCounted(s: State, a: AccountId, y: Tx, x: Tx)
    requires Performed(s, a, [Turn(x, Entered, false)]) && x.from == a
    requires y == Worthless(1, a, y.createdAt) && y.createdAt < x.createdAt
    ensures var t := Steps(s, [TryLock(0, y), ReadVolume(0), CountSenders(0)]);
      && PcOf(t, 0).Counted? && PcOf(t, 0).tx == y
      && AcctOf(t, a).beats == [Turn(x, Entered, false), Turn(y, Aborted, false)]
      && PcOf(OnFetchStats(t, 0), 0).Ready? && !PcOf(OnFetchStats(t, 0), 0).ctx.isDormantAccount
  {
    hide Step, Steps, Standing, Left, OnRead;
    var c := AcctOf(s, a);
    var r := Step(Step(s, TryLock(0, y)), ReadVolume(0));
    var (d, m) := OnRead(c, y, map[], s.now);
    LaterCounts(x, y.createdAt);
    StandsUnmarked(s, a, Idle, c, 1);
    StandsLocked(s, a, c, y);
    StandsRead(Step(s, TryLock(0, y)), a, c, y, 2);
    ReadOnEmpty(c, y, s.now);
    StandsReady(r, a, d, y, m, 2);
    StepsThree(s, TryLock(0, y), ReadVolume(0), CountSenders(0));
    CountingStands(r, a, d, y, m, 2);
  }

  lemma CountingStands(s: State, a: AccountId, c: Acct, tx: Tx, m: Metrics, n: nat)
    requires Standing(s, a, Metered(tx, m), c, n)
    ensures var t := Step(s, CountSenders(0));
      PcOf(t, 0).Counted? && PcOf(t, 0).tx == tx && AcctOf(t, a) == c && Step(t, FetchStats(0)) == OnFetchStats(t, 0)
  {
    hide ContextFor;
  }

  lemma LaterIsReliable(a: AccountId, b: Beat<Tx>, y: Tx)
    requires b.Turn? && b.fate.Entered? && !b.torn
    ensures var q := Script(a, [b]) + [TryLock(0, y), ReadVolume(0), CountSenders(0)]; Reliable(q) && NoExpiry(q)
  {
    hide Script;
    ScriptIs(a, [b]);
  }

  lemma OnlyTurn(s: State, a: AccountId, x: Tx, y: Tx)
    requires AcctOf(s, a).beats == [Turn(x, Entered, false), Turn(y, Aborted, false)]
    requires forall u | u in AcctOf(s, a).txs :: HasTurn(AcctOf(s, a).beats, u)
    ensures forall u | u in AcctOf(s, a).txs :: u == x
  {
  }
}
