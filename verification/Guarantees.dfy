/** What holds in every state of every run, stated on the committed events and the stores. */
module Guarantees {
  import opened Domain
  import opened Verdict
  import opened Sums
  import opened History
  import opened Window
  import opened Account
  import opened Limit
  import opened Sandwich
  import opened Pattern
  import opened Watch
  import opened Serial
  import opened Burst
  import opened Expiry
  import opened Dormancy
  import opened Context
  import opened Receivers
  import opened Pipeline
  import opened Convergence
  import opened Machine
  import opened Interleaving
  import opened Effects
  import opened Pacing
  import opened Solo
  import opened Stage
  import opened Performance
  import opened Escapes
  import opened Untimed

  function Log(s: State): seq<Event> { Events(s.pipe.wal) }

  lemma AccountIsGood(actions: seq<Action>, a: AccountId)
    ensures var s := Run(actions);
      && Good(AcctOf(s, a), Holder(s, a), a, s.now) && LinkedTo(AcctOf(s, a), Log(s), a)
  {
    hide Good;
    EveryRun(actions);
  }

  // --- Daily limit ----------------------------------------------------------------

  lemma DailyFromGood(c: Acct, phase: Phase, a: AccountId, now: int, latest: nat)
    requires Good(c, phase, a, now)
    requires forall t | t in c.seen :: t <= latest
    ensures var total := Within(c.approved, latest - DAY, latest);
      && total <= LIMIT + From(c.unseen, latest - DAY)
      && (forall u | u in c.unseen :: u in c.txs)
      && (!c.blind ==> total <= LIMIT) && (Timely(c) ==> !c.blind)
      && (c.faults == 0 && c.flushes == 0 ==> !c.blind)
  {
    hide Decision, Close, Watched, Serialized, Exact, Aged, Spent, Unfailing, Whole, CountMeans, InTrail;
    TrailingLimit(c, phase, a, latest);
  }

  lemma OutlineFromGood(c: Acct, phase: Phase, a: AccountId, now: int)
    requires Good(c, phase, a, now)
    ensures EveryWindow(c) && Outlined(c, phase)
    ensures (c.faults == 0 ==> Unfailing(c.beats)) && (c.faults == 0 && c.flushes == 0 ==> Whole(c.beats))
  {
    hide Safe, Close, Summed, Outlined, Sighted, EveryWindow, Serialized, Exact, Aged, Spent, Unfailing, Whole,
      CountMeans, InTrail;
  }

  // What an account's outline says of what was missed, and what it never holds.
  lemma OutlineFacts(actions: seq<Action>, a: AccountId)
    ensures var c := AcctOf(Run(actions), a); var phase := Holder(Run(actions), a);
      && c.seen == TurnTimes(c.beats)
      && (forall u | u in c.unseen :: LostIn(c.beats, u))
      && (phase.Reads? ==> forall u | u in phase.m.missed :: LostIn(Earlier(c), u))
      && (Reliable(actions) ==> Unfailing(c.beats))
      && (Reliable(actions) && NoExpiry(actions) ==> Whole(c.beats))
  {
    hide Good, Run, EveryWindow, HasTurn, LostIn, OverlookedIn, TrimmedIn, TurnTimes, Unfailing, Whole;
    var s := Run(actions);
    AccountIsGood(actions, a);
    OutlineFromGood(AcctOf(s, a), Holder(s, a), a, s.now);
    if Reliable(actions) {
      ReliableRun(actions, a);
    }
  }

  // The approved total of the 24 hours ending at the latest instant seen under the account's lock, in
  // any run at all: over the limit by at most the committed amounts invisible to the latest approval,
  // each of which was omitted from the set or had its set lost after it; within the limit if no approval
  // missed any of a trailing window. That is so if nothing failed or expired, and also if sets expired,
  // provided no transaction is dated ahead of the clock when its metrics are read, nor at or before the
  // deadline of an earlier expiry.
  lemma DailyLimit(actions: seq<Action>, a: AccountId, latest: nat)
    requires forall t | t in AcctOf(Run(actions), a).seen :: t <= latest
    ensures var s := Run(actions); var c := AcctOf(s, a);
      var total := Within(ApprovedOf(Log(s), a), latest - 86_400_000, latest);
      && total <= 1_000_000_000 + From(c.unseen, latest - 86_400_000)
      && (forall u | u in c.unseen :: u in TxsOf(Log(s), a) && LostIn(c.beats, u))
      && (!c.blind ==> total <= 1_000_000_000)
      && (Reliable(actions) && NoExpiry(actions) ==> total <= 1_000_000_000)
      && (Reliable(actions) && NotAhead(actions, a) && AfterExpiries(actions, a) ==> total <= 1_000_000_000)
  {
    hide Good, Run, Reliable, NoExpiry, NotAhead, AfterExpiries, Timely, Within, From, LostIn, TurnTimes;
    var s := Run(actions);
    AccountIsGood(actions, a);
    OutlineFacts(actions, a);
    DailyFromGood(AcctOf(s, a), Holder(s, a), a, s.now, latest);
    if Reliable(actions) {
      ReliableRun(actions, a);
      if NotAhead(actions, a) && AfterExpiries(actions, a) {
        TimelyRun(actions, a);
      }
    }
  }

  // --- One window -----------------------------------------------------------------

  // The approved total of the window is within the limit.
  ghost predicate WindowHolds(actions: seq<Action>, a: AccountId, lo: int, hi: int) {
    Within(ApprovedOf(Log(Run(actions)), a), lo, hi) <= LIMIT
  }

  function BeatsIn(s: State, a: AccountId): seq<Beat<nat>> { Marks(AcctOf(s, a).beats) }

  // Any run, with failures and losses: a window of at most 24 hours is within the limit if no committed
  // transaction of it is trimmed before a later one and none is missed by an approval in it.
  lemma WindowSeen(actions: seq<Action>, a: AccountId, lo: int, hi: int)
    requires hi <= lo + DAY && NoTrim(BeatsIn(Run(actions), a), lo, hi)
    requires NoneOverlooked(AcctOf(Run(actions), a).overlooked, lo, hi)
    ensures WindowHolds(actions, a, lo, hi)
  {
    hide Good, Run, Outlined, NoTrim, NoneOverlooked, Marks, Within, ApprovedOf;
    var s := Run(actions);
    AccountIsGood(actions, a);
    OutlineFromGood(AcctOf(s, a), Holder(s, a), a, s.now);
  }

  // Any run at all: if the outline hides no committed transaction of the window from a later one.
  lemma WindowLimit(actions: seq<Action>, a: AccountId, lo: int, hi: int)
    requires hi <= lo + DAY && NoEscape(BeatsIn(Run(actions), a), lo, hi)
    ensures WindowHolds(actions, a, lo, hi)
  {
    hide Good, Run, Outlined, NoEscape, NoTrim, NoneOverlooked, Marks, WindowHolds;
    var s := Run(actions);
    AccountIsGood(actions, a);
    OutlineFromGood(AcctOf(s, a), Holder(s, a), a, s.now);
    NothingHidden(AcctOf(s, a), Holder(s, a), lo, hi);
    WindowSeen(actions, a, lo, hi);
  }

  // Exactly the outlines that keep a window within the limit, whatever the amounts and the interleaving, with
  // failures, losses and expiries wherever the outline has them: those that hide no committed transaction of
  // the window from a later one. Runs without failures suffice to show it if the outline needs none.
  lemma WindowExactly(p: seq<Beat<nat>>, a: AccountId, lo: int, hi: int)
    requires Possible(p) && hi <= lo + DAY
    ensures NoEscape(p, lo, hi) <==>
            forall actions | BeatsIn(Run(actions), a) == p :: WindowHolds(actions, a, lo, hi)
    ensures Unfailing(p) ==>
              (NoEscape(p, lo, hi) <==>
               forall actions | Reliable(actions) && BeatsIn(Run(actions), a) == p :: WindowHolds(actions, a, lo, hi))
  {
    hide Run, NoEscape, Possible, Unfailing, Whole, Marks, Within, ApprovedOf, Reliable, NoExpiry;
    if NoEscape(p, lo, hi) {
      forall actions | BeatsIn(Run(actions), a) == p ensures WindowHolds(actions, a, lo, hi) {
        WindowLimit(actions, a, lo, hi);
      }
    } else {
      HiddenEscapes(p, a, lo, hi);
      var actions :| Follows(actions, p, a) && Within(Approved(Run(actions), a), lo, hi) == 2 * LIMIT;
      assert BeatsIn(Run(actions), a) == p && !WindowHolds(actions, a, lo, hi);
    }
  }

  // The same for the 24 hours ending at or after every instant, which nothing can trim: exactly if no omission
  // and no loss comes between two of its committed transactions.
  lemma TrailingExactly(p: seq<Beat<nat>>, a: AccountId, latest: nat)
    requires Possible(p) && forall b | b in p && b.Turn? :: b.of <= latest
    ensures NoTrailingEscape(p, latest) <==>
            forall actions | BeatsIn(Run(actions), a) == p :: WindowHolds(actions, a, latest - DAY, latest)
    ensures Unfailing(p) ==>
              (NoTrailingEscape(p, latest) <==>
               forall actions | Reliable(actions) && BeatsIn(Run(actions), a) == p ::
                 WindowHolds(actions, a, latest - DAY, latest))
  {
    hide Run, NoEscape, NoTrailingEscape, Possible, Unfailing, Marks, WindowHolds, Reliable;
    TrailingWindow(p, latest);
    WindowExactly(p, a, latest - DAY, latest);
  }

  // --- Every window of a length -----------------------------------------------------

  // Every window of at most `span` milliseconds has approved total within the limit.
  ghost predicate EveryWindowHolds(actions: seq<Action>, a: AccountId, span: nat) {
    forall lo: int, hi: int | hi <= lo + span :: WindowHolds(actions, a, lo, hi)
  }

  lemma SpanLimit(actions: seq<Action>, a: AccountId, span: nat)
    requires span <= DAY && NoEscapeWithin(BeatsIn(Run(actions), a), span)
    ensures EveryWindowHolds(actions, a, span)
  {
    hide Run, NoEscape, NoEscapeWithin, Marks, WindowHolds;
    WindowsOfSpan(BeatsIn(Run(actions), a), span);
    forall lo: int, hi: int | hi <= lo + span ensures WindowHolds(actions, a, lo, hi) {
      WindowLimit(actions, a, lo, hi);
    }
  }

  // A window of that length that some run following the pattern overfills.
  lemma SpanEscapes(p: seq<Beat<nat>>, a: AccountId, span: nat)
    requires Possible(p) && !NoEscapeWithin(p, span)
    ensures exists actions :: Follows(actions, p, a) && !EveryWindowHolds(actions, a, span)
  {
    hide Run, NoEscape, NoEscapeWithin, Possible, Marks, Within, ApprovedOf, Follows;
    WindowsOfSpan(p, span);
    var lo: int, hi: int :| hi <= lo + span && !NoEscape(p, lo, hi);
    HiddenEscapes(p, a, lo, hi);
    var actions :| Follows(actions, p, a) && Within(Approved(Run(actions), a), lo, hi) == 2 * LIMIT;
    assert !WindowHolds(actions, a, lo, hi);
  }

  // Exactly the outlines that keep every window of a length within the limit.
  lemma SpanExactly(p: seq<Beat<nat>>, a: AccountId, span: nat)
    requires Possible(p) && span <= DAY
    ensures NoEscapeWithin(p, span) <==>
            forall actions | BeatsIn(Run(actions), a) == p :: EveryWindowHolds(actions, a, span)
    ensures Unfailing(p) ==>
              (NoEscapeWithin(p, span) <==>
               forall actions | Reliable(actions) && BeatsIn(Run(actions), a) == p ::
                 EveryWindowHolds(actions, a, span))
  {
    hide Run, NoEscapeWithin, Possible, Unfailing, Whole, Marks, EveryWindowHolds, Reliable, NoExpiry;
    if NoEscapeWithin(p, span) {
      forall actions | BeatsIn(Run(actions), a) == p ensures EveryWindowHolds(actions, a, span) {
        SpanLimit(actions, a, span);
      }
    } else {
      SpanEscapes(p, a, span);
    }
  }

  // The same for instants and losses alone, when nothing fails: whichever evaluations are aborted, a list of
  // instants with expiries between and within them keeps every window of the length exactly if, with all of
  // them committed, it hides none from a later one.
  lemma InstantsExactly(q: seq<Beat<nat>>, a: AccountId, span: nat)
    requires Possible(q) && span <= DAY && forall b | b in q && b.Turn? :: b.fate.Entered?
    ensures NoEscapeWithin(q, span) <==>
            forall actions | Reliable(actions) && SameInstants(BeatsIn(Run(actions), a), q) ::
              EveryWindowHolds(actions, a, span)
  {
    hide Run, NoEscapeWithin, Possible, Whole, Marks, EveryWindowHolds, Reliable, NoExpiry;
    if NoEscapeWithin(q, span) {
      forall actions | Reliable(actions) && SameInstants(BeatsIn(Run(actions), a), q)
        ensures EveryWindowHolds(actions, a, span)
      {
        OutlineFacts(actions, a);
        MarksUnfailing(AcctOf(Run(actions), a).beats);
        FewerCommits(BeatsIn(Run(actions), a), q, span);
        SpanLimit(actions, a, span);
      }
    } else {
      SpanEscapes(q, a, span);
      var actions :| Follows(actions, q, a) && !EveryWindowHolds(actions, a, span);
      assert SameInstants(BeatsIn(Run(actions), a), q);
    }
  }

  // Any run, with failures and losses: what suffices for every window of a given length.
  lemma EveryWindowSeen(actions: seq<Action>, a: AccountId, span: nat)
    requires span <= DAY && NoStraddle(AcctOf(Run(actions), a).seen, span)
    requires forall o | o in AcctOf(Run(actions), a).overlooked ::
               Apart(o.missed.createdAt, o.approval.createdAt) > span
    ensures EveryWindowHolds(actions, a, span)
  {
    hide Run, NoStraddle, NoTrim, TurnTimes, Marks, LostIn, Unfailing, Whole, WindowHolds;
    var c := AcctOf(Run(actions), a);
    OutlineFacts(actions, a);
    forall lo: int, hi: int | hi <= lo + span ensures WindowHolds(actions, a, lo, hi) {
      StraddlesTrim(c.beats, span, lo, hi);
      WindowSeen(actions, a, lo, hi);
    }
  }

  // When nothing failed and nothing expired, every window of a length that no three instants straddle is
  // within the limit.
  lemma EveryWindowLimit(actions: seq<Action>, a: AccountId, span: nat)
    requires Reliable(actions) && NoExpiry(actions)
    requires span <= DAY && NoStraddle(AcctOf(Run(actions), a).seen, span)
    ensures EveryWindowHolds(actions, a, span)
  {
    hide Run, NoStraddle, NoTrim, NoEscape, TurnTimes, Marks, LostIn, Unfailing, Whole, WindowHolds;
    var c := AcctOf(Run(actions), a);
    OutlineFacts(actions, a);
    MarksUnfailing(c.beats);
    forall lo: int, hi: int | hi <= lo + span ensures WindowHolds(actions, a, lo, hi) {
      StraddlesTrim(c.beats, span, lo, hi);
      WholeIsTrimmedOnly(Marks(c.beats), lo, hi);
      WindowLimit(actions, a, lo, hi);
    }
  }

  // Exactly the lists of instants that keep every window within the limit, whatever the amounts, the
  // interleaving and the aborted evaluations: those that straddle no window of that length.
  lemma EveryWindowExactly(ts: seq<nat>, a: AccountId, span: nat)
    requires span <= DAY
    ensures NoStraddle(ts, span) <==>
            forall actions | Reliable(actions) && NoExpiry(actions) && AcctOf(Run(actions), a).seen == ts ::
              EveryWindowHolds(actions, a, span)
  {
    hide Run, NoStraddle, Within, ApprovedOf, Reliable, NoExpiry;
    if NoStraddle(ts, span) {
      forall actions | Reliable(actions) && NoExpiry(actions) && AcctOf(Run(actions), a).seen == ts
        ensures EveryWindowHolds(actions, a, span)
      {
        EveryWindowLimit(actions, a, span);
      }
    } else {
      StraddleEscapes(ts, a, span);
      var actions, lo: int, hi: int :|
        && Reliable(actions) && NoExpiry(actions) && AcctOf(Run(actions), a).seen == ts && hi <= lo + span
        && Within(Approved(Run(actions), a), lo, hi) == 2 * LIMIT;
      assert !WindowHolds(actions, a, lo, hi);
    }
  }

  // Instants that never go back straddle nothing.
  lemma OrderedWindowLimit(actions: seq<Action>, a: AccountId)
    requires Reliable(actions) && NoExpiry(actions) && Ordered(AcctOf(Run(actions), a).seen)
    ensures EveryWindowHolds(actions, a, DAY)
  {
    hide Run, EveryWindowHolds;
    OrderedNeverStraddles(AcctOf(Run(actions), a).seen, DAY);
    EveryWindowLimit(actions, a, DAY);
  }

  // Requests dated before they wait for the lock: if every instant lies at most `lag` behind the clock at
  // its read, every window shorter than 24 hours by `lag` is within the limit, even as sets expire.
  lemma LaggedWindowLimit(actions: seq<Action>, a: AccountId, lag: nat, span: nat)
    requires Reliable(actions) && LagsAtMost(actions, a, lag) && span + lag <= DAY
    ensures EveryWindowHolds(actions, a, span)
  {
    hide Good, Run, EveryWindowHolds, LagsAtMost, NoEscapeWithin, Spaced, Marks, Paced;
    var s := Run(actions);
    LaggedInRun(actions, a, lag);
    ReliableRun(actions, a);
    AccountIsGood(actions, a);
    FreshFromGood(AcctOf(s, a), Holder(s, a), a, s.now);
    LaggedNeverEscapes(AcctOf(s, a), Holder(s, a), s.now, lag, span);
    SpanLimit(actions, a, span);
  }

  lemma FreshFromGood(c: Acct, phase: Phase, a: AccountId, now: int)
    requires Good(c, phase, a, now)
    ensures Fresh(c, phase, now)
  {
    hide Safe, Close, Watched, Serialized, Exact, Fresh, CountMeans;
  }

  // Exactly: a delay of up to `lag` leaves every window of a length within the limit if and only if the two
  // together do not exceed 24 hours.
  lemma LagExactly(a: AccountId, lag: nat, span: nat)
    requires span <= DAY
    ensures span + lag <= DAY <==>
            forall actions | Reliable(actions) && LagsAtMost(actions, a, lag) :: EveryWindowHolds(actions, a, span)
  {
    hide Run, LagsAtMost, Reliable, Within, ApprovedOf;
    if span + lag <= DAY {
      forall actions | Reliable(actions) && LagsAtMost(actions, a, lag) ensures EveryWindowHolds(actions, a, span) {
        LaggedWindowLimit(actions, a, lag, span);
      }
    } else {
      DelayEscapes(a, lag, span);
      var actions :|
        Reliable(actions) && LagsAtMost(actions, a, lag) && Within(Approved(Run(actions), a), 0, span) == 2 * LIMIT;
      assert !WindowHolds(actions, a, 0, span);
    }
  }

  // --- Expiry ---------------------------------------------------------------------------

  // A read dated after the set's deadline, and after every earlier expiry, gives the same metrics and
  // leaves the same set whether or not the set has expired.
  lemma ExpiryChangesNoRead(actions: seq<Action>, e: nat)
    requires var s := Run(actions); var pc := PcOf(s, e);
      && pc.Locked? && AcctOf(s, pc.tx.from).deadline < pc.tx.createdAt
      && Reliable(actions) && NotAhead(actions, pc.tx.from)
      && forall m, d: int | 0 <= m < |actions| && ExpiresAt(Run(actions[..m]), actions[m], pc.tx.from, d) ::
           d < pc.tx.createdAt
    ensures var s := Run(actions); var a := PcOf(s, e).tx.from;
      var kept, expired := OnReadVolume(s, e), OnReadVolume(OnFlushVolume(s, a, true), e);
      && AcctOf(kept, a).window == AcctOf(expired, a).window == EMPTY
      && PcOf(kept, e).Metered? && PcOf(kept, e).m.volume == PcOf(kept, e).m.count == 0
      && PcOf(expired, e).Metered? && PcOf(expired, e).m.volume == PcOf(expired, e).m.count == 0
  {
    hide Run, Good, AllGood, Informed, Stored, OnRead, Read, Answer, OnReadVolume, WithTear, ExpiresAt, NotAhead,
      Reliable, Timely;
    var s := Run(actions);
    var tx := PcOf(s, e).tx;
    EveryRun(actions);
    AccountIsGood(actions, tx.from);
    TimelyRun(actions, tx.from);
    assert actions[..|actions|] == actions;
    ExpiredBefore(actions, tx.from, |actions|, tx.createdAt);
    HeldBy(s, e);
    HistoryBacked(s, tx.from);
    ExpiryFromGood(AcctOf(s, tx.from), tx.from, s.now, tx, s.pipe.history);
    ReadIs(AcctOf(s, tx.from), tx, s.pipe.history, s.now);
    ReadIs(OnFlush(AcctOf(s, tx.from), Out, true), tx, s.pipe.history, s.now);
    ReadLeaves(s, e, tx);
    ReadLeaves(OnFlushVolume(s, tx.from, true), e, tx);
  }

  lemma ReadLeaves(s: State, e: nat, tx: Tx)
    requires PcOf(s, e) == Locked(tx)
    ensures var r := OnReadVolume(s, e); var (c, m) := OnRead(AcctOf(s, tx.from), tx, s.pipe.history, s.now);
      PcOf(r, e) == Metered(tx, m) && AcctOf(r, tx.from) == c
  {
    hide OnRead;
  }

  lemma ExpiryFromGood(c: Acct, a: AccountId, now: int, tx: Tx, h: Table)
    requires Good(c, Out, a, now) && OnTime(c) && tx.from == a && Backed(h, a, c.txs)
    requires c.deadline < tx.createdAt && c.expiredUntil < tx.createdAt
    ensures Answer(tx, h) == 0
    ensures Read(EMPTY, tx.createdAt, 0) == Reading(EMPTY, 0, 0) == Read(c.window, tx.createdAt, 0)
  {
    hide Safe, Fresh, Close, Watched, Serialized, Exact, CountMeans, Read, Answer;
    ExpiryInvisible(c, now, tx, h);
  }

  // Leaving an account's expiries out of such a run changes neither the log nor any table, lock or sender
  // set, and its set only by entries at least 24 hours older than an expired deadline.
  lemma ExpiryChangesNothing(actions: seq<Action>, a: AccountId)
    requires Reliable(actions) && NotAhead(actions, a) && AfterExpiries(actions, a)
    ensures var s, t := Run(actions), Run(WithoutExpiry(actions, a));
      && t.pipe == s.pipe && t.recvs == s.recvs && t.locks == s.locks && t.now == s.now
      && (forall e :: PcAlike(PcOf(s, e), PcOf(t, e), a))
      && Outlives(AcctOf(s, a).window, AcctOf(t, a).window, AcctOf(s, a).expiredUntil)
      && (forall b | b != a :: AcctOf(t, b) == AcctOf(s, b))
  {
    hide Run, WithoutExpiry, PcAlike, Outlives, PcOf;
    ExpiryRefines(actions, a);
  }

  // --- The volume read ---------------------------------------------------------------

  lemma BetweenFromGood(c: Acct, phase: Phase, a: AccountId, now: int)
    requires Good(c, phase, a, now)
    ensures Between(c, phase)
    ensures c.faults == 0 && c.flushes == 0 && phase.Reads? ==> phase.m.missed == []
    ensures phase.Reads? ==> forall u | u in phase.m.missed :: u in c.txs
  {
    hide Current, Decision, Bounded, Dated, InOrder, Between, Watched, Serialized, Exact, Aged, Spent, Unfailing, Whole,
      CountMeans, InTrail;
  }

  // For instants that never go back: the volume read is the committed 24-hour sum less at most what was
  // missed, and at most the 48-hour sum. Each missed transaction was omitted from the set, or the set was lost
  // between its own evaluation and this one; without failures it was the latter.
  lemma VolumeSandwich(actions: seq<Action>, a: AccountId)
    requires Holder(Run(actions), a).Reads? && Ordered(AcctOf(Run(actions), a).seen)
    ensures var s := Run(actions); var phase := Holder(s, a);
      var t, v, log := phase.tx.createdAt, phase.m.volume, TxsOf(Log(s), a);
      && Within(log, t - DAY, t) <= v + Within(phase.m.missed, t - DAY, t)
      && (forall u | u in phase.m.missed :: u in log && LostIn(Earlier(AcctOf(s, a)), u))
      && (Reliable(actions) ==> Unfailing(AcctOf(s, a).beats))
      && v <= Within(log, t - 2 * DAY, t)
      && (!AcctOf(s, a).seeded && phase.m.missed == [] ==> v == Within(log, t - DAY, t))
      && (Reliable(actions) && NoExpiry(actions) ==> phase.m.missed == [])
  {
    hide Good, Run, LostIn, TurnTimes, Unfailing, Whole;
    var s := Run(actions);
    AccountIsGood(actions, a);
    OutlineFacts(actions, a);
    BetweenFromGood(AcctOf(s, a), Holder(s, a), a, s.now);
    if Reliable(actions) {
      ReliableRun(actions, a);
    }
  }

  // A read that finds no set: what it misses is committed and was omitted or lost with its set, and each such
  // transaction is outside the 24 hours of the read, or has no history row yet, or is one more commit of a
  // transaction that the table's answer counts.
  lemma MissedWithoutSet(actions: seq<Action>, e: nat)
    requires var s := Run(actions); PcOf(s, e).Locked? && !AcctOf(s, PcOf(s, e).tx.from).window.Exists()
    ensures var s := Run(actions); var tx := PcOf(s, e).tx; var r := OnReadVolume(s, e);
      var c, h, t := AcctOf(r, tx.from), s.pipe.history, tx.createdAt;
      && PcOf(r, e).Metered? && PcOf(r, e).m.volume == SumAmount(h, tx.from, t - DAY, t)
      && forall u | u in PcOf(r, e).m.missed ::
           && u in TxsOf(Log(s), tx.from) && LostIn(AcctOf(s, tx.from).beats, u)
           && (!(t - DAY <= u.createdAt <= t) || KeyOf(u) !in h || (u in c.covered && KeyOf(u) in h))
  {
    hide Good, Run, LostIn, TurnTimes, SumAmount, InTrail, OnRead, AllGood, Stored, Informed, Mutex, TxsOf;
    var s := Run(actions);
    var tx := PcOf(s, e).tx;
    EveryRun(actions);
    AccountIsGood(actions, tx.from);
    HeldBy(s, e);
    MissedFromGood(AcctOf(s, tx.from), tx.from, s.now, tx, s.pipe.history);
    forall u, v | u in AcctOf(s, tx.from).txs && v in AcctOf(s, tx.from).txs && KeyOf(u) == KeyOf(v) ensures u == v {
      SameKeySameTx(s, tx.from, u, v);
    }
  }

  lemma MissedFromGood(c: Acct, a: AccountId, now: int, tx: Tx, h: Table)
    requires Good(c, Out, a, now) && !c.window.Exists()
    ensures var (d, m) := OnRead(c, tx, h, now); var t := tx.createdAt;
      && m.volume == SumAmount(h, tx.from, t - DAY, t)
      && (forall u | u in d.covered :: u in c.txs && Account.Projected(u, h, t))
      && forall u | u in m.missed ::
           && u in c.txs && LostIn(c.beats, u)
           && (!Account.Projected(u, h, t) || exists v :: v in d.covered && KeyOf(v) == KeyOf(u))
  {
    hide OnRead, Close, Summed, Sighted, EveryWindow, Serialized, Exact, Fresh, CountMeans, LostIn, HasTurn, TrimmedIn,
      OverlookedIn, TurnTimes, SumAmount, Recovered, Unrecovered, InTrail, Account.Projected, From;
    ReadShape(c, tx, h, now);
    RecoveredMembers(c.lost, h, tx.createdAt);
    UnrecoveredMembers(c.lost, h, tx.createdAt);
    NoMarkerWorth(Answer(tx, h), tx.createdAt);
  }

  lemma NoMarkerWorth(answer: nat, t: nat)
    ensures (if answer > 0 then Window(Some(Marker(answer, t)), []) else EMPTY).Volume() == answer
  {
  }

  // The lock step never takes a history key for two transactions.
  lemma SameKeySameTx(s: State, a: AccountId, u: Tx, v: Tx)
    requires Inv(s) && u in AcctOf(s, a).txs && v in AcctOf(s, a).txs && KeyOf(u) == KeyOf(v)
    ensures u == v
  {
    hide AllGood, Mutex, Informed, Sound;
    assert LinkedTo(AcctOf(s, a), Log(s), a);
    TxsOfMembers(Log(s), a);
  }

  // --- Serial order --------------------------------------------------------------------

  lemma SerialFromGood(c: Acct, a: AccountId, now: int)
    requires Good(c, Out, a, now)
    ensures Serialized(c, Out)
  {
    hide Safe, Close, Watched, Serialized, Exact, Fresh, CountMeans;
  }

  // Between evaluations of an account: its set, the volume verdicts of all its evaluations, and the
  // instants, transactions and volume verdicts in the log are those of running its evaluations one at a
  // time in lock order, each loss of the set at its place among or within them; and its outline is theirs.
  lemma Serializable(actions: seq<Action>, a: AccountId)
    requires a !in Run(actions).locks
    ensures var s := Run(actions); var c := AcctOf(s, a); var ops := c.ops;
      && c.window == RunSerially(ops)
      && (forall i | 0 <= i < |ops| && ops[i].Eval? :: ops[i].call.passed <==> SerialVerdict(ops, i))
      && c.seen == Times(ops) && c.beats == BeatsOf(ops)
      && TxsOf(Log(s), a) == CommittedTxs(ops) && VerdictsOf(Log(s), a) == CommittedVerdicts(ops)
      && (Reliable(actions) && NoExpiry(actions) ==> Undisturbed(ops))
  {
    hide Good, Run, RunSerially, SerialVerdict, BeatsOf, Times, CommittedTxs, CommittedVerdicts, TxsOf, VerdictsOf;
    var s := Run(actions);
    AccountIsGood(actions, a);
    SerialFromGood(AcctOf(s, a), a, s.now);
    if Reliable(actions) {
      ReliableRun(actions, a);
    }
    assert BeatsOf(AcctOf(s, a).ops) + [] == BeatsOf(AcctOf(s, a).ops);
    assert CommittedTxs(AcctOf(s, a).ops) + [] == CommittedTxs(AcctOf(s, a).ops);
    assert CommittedVerdicts(AcctOf(s, a).ops) + [] == CommittedVerdicts(AcctOf(s, a).ops);
    assert Times(AcctOf(s, a).ops) + [] == Times(AcctOf(s, a).ops);
  }

  lemma ExactFromGood(c: Acct, phase: Phase, a: AccountId, now: int)
    requires Good(c, phase, a, now) && c.faults == 0 && c.flushes == 0 && OneDay(c.seen)
    ensures Fits(c.txs, c.verdicts)
  {
    hide Safe, Close, Watched, Serialized, Fits, Fresh, CountMeans;
  }

  // The race test for any number of transactions, in any interleaving, with evaluations still running or
  // aborted: of an account's committed events, all read within 24 hours, those whose volume rule passed
  // come first, they pass while the running total of the committed amounts fits, and of equal amounts
  // exactly min(n, LIMIT / amount) pass.
  lemma RaceOutcome(actions: seq<Action>, a: AccountId)
    requires Reliable(actions) && NoExpiry(actions) && OneDay(AcctOf(Run(actions), a).seen)
    ensures var log := Log(Run(actions)); var txs, passed := TxsOf(log, a), VerdictsOf(log, a);
      && |passed| == |txs|
      && (forall i | 0 <= i < |txs| :: passed[i] <==> Total(txs[..i + 1]) <= LIMIT)
      && (forall i, j | 0 <= i <= j < |passed| && passed[j] :: passed[i])
      && (forall amount: nat | amount > 0 && (forall u | u in txs :: u.amount == amount) ::
            PassCount(passed) == if |txs| <= LIMIT / amount then |txs| else LIMIT / amount)
  {
    hide Good, Run, OneDay, TxsOf, VerdictsOf, PassCount, Total;
    var s := Run(actions);
    AccountIsGood(actions, a);
    ReliableRun(actions, a);
    ExactFromGood(AcctOf(s, a), Holder(s, a), a, s.now);
    var txs, passed := TxsOf(Log(s), a), VerdictsOf(Log(s), a);
    forall i, j | 0 <= i <= j < |passed| && passed[j] ensures passed[i] {
      FitsIsPrefix(txs, passed, i, j);
    }
    forall amount: nat | amount > 0 && (forall u | u in txs :: u.amount == amount)
      ensures PassCount(passed) == if |txs| <= LIMIT / amount then |txs| else LIMIT / amount
    {
      RaceTest(txs, passed, amount);
    }
  }

  // --- Commit before cache ------------------------------------------------------------------

  lemma CommitBeforeCache(actions: seq<Action>, a: AccountId, id: nat)
    ensures var s := Run(actions);
      && s.pipe.rows == RowsOf(Log(s)) && (id in s.pipe.rows <==> exists e :: e in Log(s) && e.tx.id == id)
      && (id in s.pipe.rows ==> s.pipe.rows[id].status != REJECTED)
      && (forall u | u in AcctOf(s, a).window.live ::
            exists e :: e in Log(s) && e.tx == u && u.from == a && e.status != REJECTED)
  {
    EveryRun(actions);
    var s := Run(actions);
    RowsOfKeys(Log(s), id);
    TxsOfMembers(Log(s), a);
    RowsNeverRejected(Log(s), id);
  }

  lemma {:induction false} RowsNeverRejected(es: seq<Event>, id: nat)
    requires forall e | e in es :: e.status != REJECTED
    ensures id in RowsOf(es) ==> RowsOf(es)[id].status != REJECTED
  {
    if es != [] {
      RowsNeverRejected(es[..|es| - 1], id);
    }
  }

  // --- The pipeline inside the service --------------------------------------------------------

  // From any reachable state, draining ends with one history row and one audit row per rule for each
  // distinct committed event, and these record the transaction and each rule's own result.
  lemma EventuallyConsistent(actions: seq<Action>)
    ensures var s := Run(actions);
      && Sound(s.pipe)
      && HistoryIs(Drain(s.pipe).history, Log(s)) && AuditIs(Drain(s.pipe).audit, Log(s))
      && (forall e | e in Log(s) ::
            Holds(Drain(s.pipe).history, e.tx) && forall r | r in e.results :: Records(Drain(s.pipe).audit, e, r))
  {
    hide AllGood, Mutex, Informed, Linked, HistoryIs, AuditIs, Holds, Records, Run, Sound;
    EveryRun(actions);
    var s := Run(actions);
    EventsCoherent(s);
    DrainEnds(s.pipe);
    Converged(Drain(s.pipe));
  }

  // --- Dormancy --------------------------------------------------------------------------------

  lemma CountsFromGood(c: Acct, phase: Phase, a: AccountId, now: int)
    requires Good(c, phase, a, now)
    ensures CountMeans(c, phase) && Ledger(c, phase, a)
  {
    hide Ledger, CountMeans, Close, Watched, Serialized, Exact, Fresh, Current, Decision, Bounded;
  }

  lemma DormancyInState(s: State, e: nat)
    requires Inv(s) && PcOf(s, e).Counted?
    ensures var pc := PcOf(s, e); var a, t := pc.tx.from, pc.tx.createdAt;
      var ctx := ContextFor(pc.tx, pc.m, pc.senders, s.pipe.history);
      && (!ctx.isDormantAccount ==>
            || ActiveWithin(AcctOf(s, a).txs, t - THIRTY_DAYS, t)
            || (!Ordered(AcctOf(s, a).seen) && pc.m.later && ActiveAfter(AcctOf(s, a).txs, t)))
      && (ctx.isDormantAccount ==>
            forall u | u in AcctOf(s, a).txs && t - THIRTY_DAYS <= u.createdAt <= t ::
              KeyOf(u) !in s.pipe.history && u !in AcctOf(s, a).window.live)
  {
    hide ContextOf, FetchGroupedStats, GroupCount, GroupTotal, GroupP2p, Backed, CountMeans, Ledger, Ordered,
      ActiveWithin, ActiveAfter, Good, Stored;
    var pc := PcOf(s, e);
    HeldBy(s, e);
    HistoryBacked(s, pc.tx.from);
    CountsFromGood(AcctOf(s, pc.tx.from), PhaseOf(pc), pc.tx.from, s.now);
    DormancySound(AcctOf(s, pc.tx.from), PhaseOf(pc), pc.tx.from, s.pipe.history, pc.senders);
  }

  // The flag computed from the statistics just fetched. Not dormant: a committed transaction of the last 30
  // days, or instants that have gone back and a set that shows a member dated after the candidate, as is then
  // some committed one (`Escapes.LaterEntryIsActivity`). Dormant: every committed transaction of those days is
  // absent from table and sorted set.
  lemma DormancyInRun(actions: seq<Action>, e: nat)
    requires PcOf(Run(actions), e).Counted?
    ensures var s := Run(actions); var tx := PcOf(s, e).tx;
      var after := PcOf(OnFetchStats(s, e), e);
      var log, lo := TxsOf(Log(s), tx.from), tx.createdAt - 2_592_000_000;
      && after.Ready?
      && (!after.ctx.isDormantAccount ==>
            || ActiveWithin(log, lo, tx.createdAt)
            || (!Ordered(AcctOf(s, tx.from).seen) && PcOf(s, e).m.later && ActiveAfter(log, tx.createdAt)))
      && (after.ctx.isDormantAccount ==>
            forall u | u in log && lo <= u.createdAt <= tx.createdAt ::
              KeyOf(u) !in s.pipe.history && u !in AcctOf(s, tx.from).window.live)
  {
    hide Good, Run, ContextFor, AllGood, Sound, Booked;
    EveryRun(actions);
    DormancyInState(Run(actions), e);
  }
}
