/** Why no window is over the limit unless the outline of evaluations and losses hides one of its
    transactions from a later one. */
module Watch {
  import opened Domain
  import opened Sums
  import opened History
  import opened Window
  import opened Account
  import opened Limit
  import opened Pattern

  function Shown(c: Acct, lo: int, hi: int): nat {
    Within(c.window.live, lo, hi) + Within(c.covered, lo, hi)
  }

  // Every committed amount is shown, lost, trimmed, or on its way into the set.
  ghost predicate Summed(c: Acct, phase: Phase) {
    && (forall lo: int, hi: int ::
          Within(c.txs, lo, hi) <= Shown(c, lo, hi) + Within(c.lost, lo, hi)
                                   + Within(Pending(phase), lo, hi) + Within(c.trimmed, lo, hi))
    && (forall lo: int, hi: int :: Within(c.approved, lo, hi) <= Within(c.txs, lo, hi))
  }

  // The outline before the evaluation in progress.
  function Earlier(c: Acct): seq<Beat<Tx>> { if c.beats == [] then [] else c.beats[..|c.beats| - 1] }

  // The outline accounts for each transaction: all have a committed turn, what was trimmed was left behind by
  // a later instant, what was lost was omitted or lost later, and so was what the read or the latest
  // approval did not see.
  ghost predicate Outlined(c: Acct, phase: Phase) {
    && c.seen == TurnTimes(c.beats)
    && (forall u | u in c.txs :: HasTurn(c.beats, u))
    && (forall u | u in c.trimmed :: TrimmedIn(c.beats, u))
    && (forall u | u in c.lost || u in c.unseen :: LostIn(c.beats, u))
    && (forall o | o in c.overlooked :: OverlookedIn(c.beats, o))
    && (c.window.marker.Some? ==> forall u | u in c.covered :: u.createdAt <= c.window.marker.value.score)
    && (phase.Reads? || phase.Committed? ==>
          && EndsWith(c, phase.tx, if phase.Reads? then Aborted else Entered)
          && forall u | u in c.window.live || u in c.covered :: HasTurn(Earlier(c), u))
    && (phase.Reads? ==> forall u | u in phase.m.missed :: LostIn(Earlier(c), u))
  }

  // The volume in hand covers every window around the candidate that holds nothing missed and in which, were
  // the candidate committed, nothing would be trimmed.
  ghost predicate Sighted(c: Acct, phase: Phase) {
    phase.Reads? ==>
      forall lo: int, hi: int |
        && lo <= phase.tx.createdAt <= hi <= lo + DAY && NoTrim(Marks(WithFate(c.beats, Entered)), lo, hi)
        && NoneIn(phase.m.missed, lo, hi) :: Within(c.txs, lo, hi) <= phase.m.volume
  }

  predicate NoneIn(q: seq<Tx>, lo: int, hi: int) { forall u | u in q :: !(lo <= u.createdAt <= hi) }

  // No approval in the window missed a transaction of the window.
  predicate NoneOverlooked(q: seq<Oversight>, lo: int, hi: int) {
    forall o | o in q :: !(lo <= o.missed.createdAt <= hi && lo <= o.approval.createdAt <= hi)
  }

  ghost predicate EveryWindow(c: Acct) {
    forall lo: int, hi: int |
      hi <= lo + DAY && NoTrim(Marks(c.beats), lo, hi) && NoneOverlooked(c.overlooked, lo, hi) ::
      Within(c.approved, lo, hi) <= LIMIT
  }

  ghost predicate Watched(c: Acct, phase: Phase) {
    Summed(c, phase) && Outlined(c, phase) && Sighted(c, phase) && EveryWindow(c)
  }

  // --- Reading -----------------------------------------------------------------

  lemma CoveredIsMarked(c: Acct, phase: Phase, a: AccountId, lo: int, hi: int)
    requires Ledger(c, phase, a)
    ensures Within(c.covered, lo, hi) <= c.window.MarkerFrom(lo) <= c.window.MarkerAmount()
  {
    FromBounds(c.covered, lo, hi);
  }

  lemma RecoveryStep(q: seq<Tx>, h: Table, t: nat)
    requires q != []
    ensures var p, u := q[..|q| - 1], q[|q| - 1];
      || (Recovered(q, h, t) == Recovered(p, h, t) + [u] && Unrecovered(q, h, t) == Unrecovered(p, h, t))
      || (Recovered(q, h, t) == Recovered(p, h, t) && Unrecovered(q, h, t) == Unrecovered(p, h, t) + [u])
  {
    hide Projected;
  }

  lemma {:induction false} RecoverySplitsWithin(q: seq<Tx>, h: Table, t: nat, lo: int, hi: int)
    ensures Within(Recovered(q, h, t), lo, hi) + Within(Unrecovered(q, h, t), lo, hi) == Within(q, lo, hi)
  {
    if q != [] {
      hide Recovered, Unrecovered;
      var p, u := q[..|q| - 1], q[|q| - 1];
      RecoverySplitsWithin(p, h, t, lo, hi);
      RecoveryStep(q, h, t);
      WithinSnoc(Recovered(p, h, t), u, lo, hi);
      WithinSnoc(Unrecovered(p, h, t), u, lo, hi);
    }
  }

  lemma SumsByTrim(w: Window, covered: seq<Tx>, trimmed: seq<Tx>, start: int, lo: int, hi: int)
    requires Within(covered, lo, hi) <= w.MarkerAmount()
    ensures var left := if w.Trim(start).marker.Some? then covered else [];
      Within(w.live, lo, hi) + Within(covered, lo, hi) + Within(trimmed, lo, hi) <=
      Within(w.Trim(start).live, lo, hi) + Within(left, lo, hi)
      + Within(trimmed + TrimmedBy(w, covered, start), lo, hi)
  {
    hide Kept, Removed;
    TrimSplits(w.live, start, lo, hi);
    var aged := if w.marker.Some? && w.marker.value.score < start then covered else [];
    assert TrimmedBy(w, covered, start) == Removed(w.live, start) + aged;
    WithinConcat(trimmed, Removed(w.live, start) + aged, lo, hi);
    WithinConcat(Removed(w.live, start), aged, lo, hi);
    assert Within([], lo, hi) == 0;
  }

  lemma SumsByRead(c: Acct, a: AccountId, tx: Tx, h: Table, now: int, lo: int, hi: int)
    requires Ledger(c, Out, a) && Summed(c, Out)
    ensures var (d, m) := OnRead(c, tx, h, now);
      Within(d.txs, lo, hi) <= Shown(d, lo, hi) + Within(d.lost, lo, hi) + Within(d.trimmed, lo, hi)
  {
    hide OnRead, Recovered, Unrecovered, Answer, TrimmedBy, Kept, Ledger;
    ReadShape(c, tx, h, now);
    CoveredIsMarked(c, Out, a, lo, hi);
    assert Within([], lo, hi) == 0;
    if c.window.Exists() {
      SumsByTrim(c.window, c.covered, c.trimmed, tx.createdAt - DAY, lo, hi);
    } else {
      RecoverySplitsWithin(c.lost, h, tx.createdAt, lo, hi);
    }
  }

  lemma SummedByRead(c: Acct, a: AccountId, tx: Tx, h: Table, now: int)
    requires Ledger(c, Out, a) && Summed(c, Out)
    ensures var (d, m) := OnRead(c, tx, h, now); Summed(d, Reads(tx, m))
  {
    hide Ledger, Shown, OnRead, Recovered, Unrecovered, Answer;
    var (d, m) := OnRead(c, tx, h, now);
    ReadShape(c, tx, h, now);
    forall lo: int, hi: int
      ensures Within(d.txs, lo, hi) <= Shown(d, lo, hi) + Within(d.lost, lo, hi)
                                       + Within(Pending(Reads(tx, m)), lo, hi) + Within(d.trimmed, lo, hi)
    {
      SumsByRead(c, a, tx, h, now, lo, hi);
    }
  }

  lemma GrowsByTurn(q: seq<Beat<Tx>>, b: Beat<Tx>)
    ensures Grows(q, q + [b]) && (q + [b])[..|q|] == q
  {
  }

  // A turn that reads more than 24 hours ahead of a committed one leaves it behind.
  lemma LeftBehind(q: seq<Beat<Tx>>, u: Tx, tx: Tx)
    requires HasTurn(q, u) && u.createdAt + DAY < tx.createdAt
    ensures TrimmedIn(q + [Turn(tx, Aborted, false)], u)
  {
    var r := q + [Turn(tx, Aborted, false)];
    var i :| 0 <= i < |q| && Commits(q[i]) && q[i].of == u;
    assert r[i] == q[i] && r[|q|] == Turn(tx, Aborted, false);
  }

  lemma TrimmedByRead(c: Acct, a: AccountId, tx: Tx, h: Table, now: int, u: Tx)
    requires Ledger(c, Out, a) && Outlined(c, Out) && u in OnRead(c, tx, h, now).0.trimmed
    ensures TrimmedIn(OnRead(c, tx, h, now).0.beats, u)
  {
    hide From, InTrail, HasTurn, TrimmedIn, LostIn, OverlookedIn, OnRead, Removed, Recovered, Unrecovered, Answer;
    ReadShape(c, tx, h, now);
    RemovedMembers(c.window.live, tx.createdAt - DAY);
    GrowsByTurn(c.beats, Turn(tx, Aborted, false));
    if u in c.trimmed {
      GrownTrimmed(c.beats, c.beats + [Turn(tx, Aborted, false)], u);
    } else {
      LeftBehind(c.beats, u, tx);
    }
  }

  lemma CoveredByRead(c: Acct, tx: Tx, h: Table, now: int)
    requires Outlined(c, Out)
    ensures var (d, m) := OnRead(c, tx, h, now);
      && (d.window.marker.Some? ==> forall u | u in d.covered :: u.createdAt <= d.window.marker.value.score)
      && (forall u | u in d.lost :: u in c.lost)
      && (forall u | u in d.window.live || u in d.covered :: u in c.window.live || u in c.covered || u in c.lost)
  {
    hide OnRead, HasTurn, TrimmedIn, LostIn, OverlookedIn, Recovered, Unrecovered, Answer, Kept, TrimmedBy;
    ReadShape(c, tx, h, now);
    RecoveredMembers(c.lost, h, tx.createdAt);
    KeptMembers(c.window.live, tx.createdAt - DAY);
  }

  lemma TurnTimesSnoc(q: seq<Beat<Tx>>, b: Beat<Tx>)
    ensures TurnTimes(q + [b]) == TurnTimes(q) + if b.Turn? then [b.of.createdAt] else []
  {
    assert (q + [b])[..|q|] == q;
  }

  lemma OutlinedByRead(c: Acct, a: AccountId, tx: Tx, h: Table, now: int)
    requires Ledger(c, Out, a) && Outlined(c, Out) && !c.torn
    ensures var (d, m) := OnRead(c, tx, h, now); Outlined(d, Reads(tx, m))
  {
    hide OnRead, HasTurn, TrimmedIn, LostIn, OverlookedIn, TurnTimes, Recovered, Unrecovered, Answer, From, InTrail;
    var (d, m) := OnRead(c, tx, h, now);
    var b := Turn(tx, Aborted, false);
    ReadShape(c, tx, h, now);
    ReadKeepsTorn(c, tx, h, now);
    CoveredByRead(c, tx, h, now);
    TurnTimesSnoc(c.beats, b);
    GrowsByTurn(c.beats, b);
    forall u | u in d.txs ensures HasTurn(d.beats, u) {
      GrownTurn(c.beats, d.beats, u);
    }
    forall u | u in d.lost || u in d.unseen ensures LostIn(d.beats, u) && LostIn(Earlier(d), u) {
      GrownLost(c.beats, d.beats, u);
    }
    OversightsGrow(c, d);
    forall u | u in d.trimmed ensures TrimmedIn(d.beats, u) {
      TrimmedByRead(c, a, tx, h, now, u);
    }
  }

  lemma ReadKeepsTorn(c: Acct, tx: Tx, h: Table, now: int)
    ensures OnRead(c, tx, h, now).0.torn == c.torn
  {
    hide Read, Recovered, Unrecovered, Answer, TrimmedBy, ShowsLater;
  }

  // Nothing trimmed lies in a window in which nothing is trimmed.
  lemma TrimmedIsOutside(q: seq<Beat<Tx>>, tx: Tx, torn: bool, u: Tx, lo: int, hi: int)
    requires lo <= tx.createdAt <= hi <= lo + DAY && NoTrim(Marks(q + [Turn(tx, Entered, torn)]), lo, hi)
    requires TrimmedIn(q + [Turn(tx, Aborted, torn)], u)
    ensures !(lo <= u.createdAt <= hi)
  {
    var p, k := Marks(q + [Turn(tx, Entered, torn)]), |q|;
    assert Counts(p[k], lo, hi);
    var s := q + [Turn(tx, Aborted, torn)];
    var i, m :| 0 <= i < m < |s| && Commits(s[i]) && s[i].of == u
                && s[m].Turn? && u.createdAt + DAY < s[m].of.createdAt;
    assert p[i] == Mark(q[i]) && (Counts(p[i], lo, hi) <==> lo <= u.createdAt <= hi);
    assert m < |q| ==> p[m] == Mark(q[m]);
  }

  lemma SightedByRead(c: Acct, phase: Phase, a: AccountId)
    requires Ledger(c, phase, a) && Summed(c, phase) && Outlined(c, phase) && phase.Reads?
    requires phase.m.volume == c.window.Volume() && phase.m.missed == c.lost
    ensures Sighted(c, phase)
  {
    hide InTrail, NoTrim, HasTurn, LostIn, OverlookedIn, TrimmedIn, Marks;
    var q, tx := Earlier(c), phase.tx;
    assert c.beats == q + [Turn(tx, Aborted, c.torn)];
    assert WithFate(c.beats, Entered) == q + [Turn(tx, Entered, c.torn)];
    forall lo: int, hi: int |
      && lo <= tx.createdAt <= hi <= lo + DAY && NoTrim(Marks(WithFate(c.beats, Entered)), lo, hi)
      && NoneIn(phase.m.missed, lo, hi)
      ensures Within(c.txs, lo, hi) <= phase.m.volume
    {
      forall u | u in c.trimmed ensures !(lo <= u.createdAt <= hi) {
        TrimmedIsOutside(q, tx, c.torn, u, lo, hi);
      }
      WithinNone(c.trimmed, lo, hi);
      WithinNone(c.lost, lo, hi);
      CoveredIsMarked(c, phase, a, lo, hi);
      FromBounds(c.window.live, lo, hi);
      assert Within([], lo, hi) == 0;
    }
  }

  // Fewer windows are asked for as the outline grows.
  lemma WindowsGrow(c: Acct, d: Acct)
    requires EveryWindow(c) && Grows(c.beats, d.beats) && d.approved == c.approved && d.overlooked == c.overlooked
    ensures EveryWindow(d)
  {
    hide NoTrim, Grows, Marks, NoneOverlooked;
    forall lo: int, hi: int |
      hi <= lo + DAY && NoTrim(Marks(d.beats), lo, hi) && NoneOverlooked(d.overlooked, lo, hi)
      ensures Within(d.approved, lo, hi) <= LIMIT
    {
      GrownTrims(c.beats, d.beats, lo, hi);
    }
  }

  lemma WatchedByRead(c: Acct, a: AccountId, tx: Tx, h: Table, now: int)
    requires Ledger(c, Out, a) && Watched(c, Out) && !c.torn
    requires var (d, m) := OnRead(c, tx, h, now); Ledger(d, Reads(tx, m), a)
    ensures var (d, m) := OnRead(c, tx, h, now); Watched(d, Reads(tx, m))
  {
    hide Ledger, Summed, Outlined, Sighted, EveryWindow, OnRead, Recovered, Unrecovered, Answer, Grows;
    var (d, m) := OnRead(c, tx, h, now);
    ReadShape(c, tx, h, now);
    SummedByRead(c, a, tx, h, now);
    OutlinedByRead(c, a, tx, h, now);
    SightedByRead(d, Reads(tx, m), a);
    GrowsByTurn(c.beats, Turn(tx, Aborted, false));
    WindowsGrow(c, d);
  }

  // --- Committing ----------------------------------------------------------------

  lemma ShownBy(c: Acct, d: Acct, lo: int, hi: int)
    requires c.window == d.window && c.covered == d.covered
    ensures Shown(c, lo, hi) == Shown(d, lo, hi)
  {
  }

  lemma SummedByCommit(c: Acct, tx: Tx, m: Metrics, status: TransactionStatus)
    requires Summed(c, Reads(tx, m))
    ensures Summed(OnCommit(c, tx, m, status), Committed(tx, m))
  {
    hide Shown, OnCommit;
    CommitShape(c, tx, m, status);
    var d := OnCommit(c, tx, m, status);
    forall lo: int, hi: int
      ensures Within(d.txs, lo, hi) == Within(c.txs, lo, hi) + Within([tx], lo, hi)
      ensures Within(c.approved + [tx], lo, hi) == Within(c.approved, lo, hi) + Within([tx], lo, hi)
      ensures Within([], lo, hi) == 0 && Shown(d, lo, hi) == Shown(c, lo, hi)
    {
      WithinConcat(c.txs, [tx], lo, hi);
      WithinConcat(c.approved, [tx], lo, hi);
      ShownBy(c, d, lo, hi);
    }
  }

  // Changing the fate of the latest turn.
  lemma FateFacts(q: seq<Beat<Tx>>, fate: Fate)
    requires q != [] && q[|q| - 1].Turn?
    ensures var r, n := WithFate(q, fate), |q| - 1;
      && |r| == |q| && r[..n] == q[..n] && r[n] == q[n].(fate := fate)
      && TurnTimes(r) == TurnTimes(q)
      && (fate != Aborted && q[n].fate != Omitted ==> Grows(q, r))
      && (fate != Aborted ==> HasTurn(r, q[n].of))
      && (fate == Omitted ==> LostIn(r, q[n].of))
  {
    var r, n := WithFate(q, fate), |q| - 1;
    TurnTimesSnoc(q[..n], q[n]);
    TurnTimesSnoc(q[..n], r[n]);
    assert q == q[..n] + [q[n]] && r == q[..n] + [r[n]];
    if fate != Aborted {
      assert Commits(r[n]) && r[n].of == q[n].of;
    }
  }

  lemma OutlineGrows(c: Acct, d: Acct, u: Tx)
    requires Grows(c.beats, d.beats)
    ensures HasTurn(c.beats, u) ==> HasTurn(d.beats, u)
    ensures LostIn(c.beats, u) ==> LostIn(d.beats, u)
    ensures TrimmedIn(c.beats, u) ==> TrimmedIn(d.beats, u)
  {
    hide HasTurn, LostIn, OverlookedIn, TrimmedIn, Grows;
    if HasTurn(c.beats, u) {
      GrownTurn(c.beats, d.beats, u);
    }
    if LostIn(c.beats, u) {
      GrownLost(c.beats, d.beats, u);
    }
    if TrimmedIn(c.beats, u) {
      GrownTrimmed(c.beats, d.beats, u);
    }
  }

  lemma OversightsGrow(c: Acct, d: Acct)
    requires Grows(c.beats, d.beats)
    ensures forall o | OverlookedIn(c.beats, o) :: OverlookedIn(d.beats, o)
  {
    hide OverlookedIn, Grows;
    forall o | OverlookedIn(c.beats, o) ensures OverlookedIn(d.beats, o) {
      GrownOversight(c.beats, d.beats, o);
    }
  }

  // The latest turn overlooks what was lost before it.
  lemma LatestOverlooks(q: seq<Beat<Tx>>, r: seq<Beat<Tx>>, tx: Tx, torn: bool, u: Tx)
    requires r == q + [Turn(tx, Entered, torn)] && LostIn(q, u)
    ensures OverlookedIn(r, Oversight(u, tx))
  {
    hide LostIn;
    assert r[..|q|] == q && Commits(r[|q|]) && r[|q|].of == tx;
  }

  lemma OutlinedByCommit(c: Acct, tx: Tx, m: Metrics, status: TransactionStatus)
    requires Outlined(c, Reads(tx, m))
    ensures Outlined(OnCommit(c, tx, m, status), Committed(tx, m))
    ensures Grows(c.beats, OnCommit(c, tx, m, status).beats)
  {
    hide OnCommit, HasTurn, LostIn, OverlookedIn, TrimmedIn, TurnTimes, Grows, WithFate;
    var d := OnCommit(c, tx, m, status);
    CommitShape(c, tx, m, status);
    CommitKeepsTorn(c, tx, m, status);
    FateFacts(c.beats, Entered);
    forall u ensures (HasTurn(c.beats, u) ==> HasTurn(d.beats, u)) && (LostIn(c.beats, u) ==> LostIn(d.beats, u))
                     && (TrimmedIn(c.beats, u) ==> TrimmedIn(d.beats, u)) {
      OutlineGrows(c, d, u);
    }
    OversightsGrow(c, d);
    assert d.beats == Earlier(c) + [Turn(tx, Entered, c.torn)];
    forall u | u in m.missed ensures LostIn(d.beats, u) && OverlookedIn(d.beats, Oversight(u, tx)) {
      EarlierGrows(c);
      GrowsTransitively(Earlier(c), c.beats, d.beats);
      GrownLost(Earlier(c), d.beats, u);
      LatestOverlooks(Earlier(c), d.beats, tx, c.torn, u);
    }
  }

  lemma EarlierGrows(c: Acct)
    ensures Grows(Earlier(c), c.beats)
  {
  }

  lemma CommitKeepsTorn(c: Acct, tx: Tx, m: Metrics, status: TransactionStatus)
    ensures OnCommit(c, tx, m, status).torn == c.torn
  {
    hide InTrail, Passes, WithFate;
  }

  lemma WindowByCommit(c: Acct, tx: Tx, m: Metrics)
    requires Summed(c, Reads(tx, m)) && Sighted(c, Reads(tx, m)) && EveryWindow(c) && Passes(tx, m)
    requires Grows(c.beats, OnCommit(c, tx, m, APPROVED).beats)
    ensures EveryWindow(OnCommit(c, tx, m, APPROVED))
  {
    hide OnCommit, NoTrim, Grows, Marks, WithFate;
    var d := OnCommit(c, tx, m, APPROVED);
    CommitShape(c, tx, m, APPROVED);
    forall lo: int, hi: int |
      hi <= lo + DAY && NoTrim(Marks(d.beats), lo, hi) && NoneOverlooked(d.overlooked, lo, hi)
      ensures Within(d.approved, lo, hi) <= LIMIT
    {
      GrownTrims(c.beats, d.beats, lo, hi);
      WithinSnoc(c.approved, tx, lo, hi);
      forall u | u in m.missed && lo <= tx.createdAt <= hi ensures !(lo <= u.createdAt <= hi) {
        var i :| 0 <= i < |m.missed| && m.missed[i] == u;
        assert d.overlooked[|c.overlooked| + i] == Oversight(u, tx);
      }
    }
  }

  lemma WatchedByCommit(c: Acct, tx: Tx, m: Metrics, status: TransactionStatus)
    requires Watched(c, Reads(tx, m)) && (status == APPROVED ==> Passes(tx, m))
    ensures Watched(OnCommit(c, tx, m, status), Committed(tx, m))
  {
    hide OnCommit, Summed, Outlined, EveryWindow, Passes, Grows, NoTrim;
    SummedByCommit(c, tx, m, status);
    OutlinedByCommit(c, tx, m, status);
    CommitShape(c, tx, m, status);
    if status == APPROVED {
      WindowByCommit(c, tx, m);
    } else {
      WindowsGrow(c, OnCommit(c, tx, m, status));
    }
  }

  // --- The other steps -------------------------------------------------------------

  lemma SummedByAdd(c: Acct, tx: Tx, m: Metrics, now: int)
    requires Summed(c, Committed(tx, m))
    ensures Summed(OnAdd(c, tx, now), Settled(tx, m, true))
  {
    var d := OnAdd(c, tx, now);
    forall lo: int, hi: int
      ensures Within(d.window.live, lo, hi) == Within(c.window.live, lo, hi) + Within([tx], lo, hi)
      ensures Within([], lo, hi) == 0
    {
      WithinConcat(c.window.live, [tx], lo, hi);
    }
  }

  lemma WatchedByAdd(c: Acct, tx: Tx, m: Metrics, now: int)
    requires Watched(c, Committed(tx, m))
    ensures Watched(OnAdd(c, tx, now), Settled(tx, m, true))
  {
    hide Summed, HasTurn, LostIn, OverlookedIn, TrimmedIn, TurnTimes, NoTrim, Marks;
    SummedByAdd(c, tx, m, now);
  }

  lemma SummedByDrop(c: Acct, tx: Tx, m: Metrics)
    requires Summed(c, Committed(tx, m))
    ensures Summed(OnDrop(c, tx), Settled(tx, m, false))
  {
    hide WithFate;
    var d := OnDrop(c, tx);
    forall lo: int, hi: int
      ensures Within(d.lost, lo, hi) == Within(c.lost, lo, hi) + Within([tx], lo, hi)
      ensures Within([], lo, hi) == 0 && Shown(d, lo, hi) == Shown(c, lo, hi)
    {
      WithinConcat(c.lost, [tx], lo, hi);
    }
  }

  lemma OutlinedByDrop(c: Acct, tx: Tx, m: Metrics)
    requires Outlined(c, Committed(tx, m))
    ensures Outlined(OnDrop(c, tx), Settled(tx, m, false)) && Grows(c.beats, OnDrop(c, tx).beats)
  {
    hide HasTurn, LostIn, OverlookedIn, TrimmedIn, TurnTimes, Grows, WithFate;
    var d := OnDrop(c, tx);
    FateFacts(c.beats, Omitted);
    OversightsGrow(c, d);
    forall u ensures (HasTurn(c.beats, u) ==> HasTurn(d.beats, u)) && (LostIn(c.beats, u) ==> LostIn(d.beats, u))
                     && (TrimmedIn(c.beats, u) ==> TrimmedIn(d.beats, u)) {
      OutlineGrows(c, d, u);
    }
  }

  lemma WatchedByDrop(c: Acct, tx: Tx, m: Metrics)
    requires Watched(c, Committed(tx, m))
    ensures Watched(OnDrop(c, tx), Settled(tx, m, false))
  {
    hide Summed, Outlined, EveryWindow, Grows;
    SummedByDrop(c, tx, m);
    OutlinedByDrop(c, tx, m);
    WindowsGrow(c, OnDrop(c, tx));
  }

  lemma SummedByFlush(c: Acct, phase: Phase, expired: bool)
    requires Summed(c, phase)
    ensures Summed(OnFlush(c, phase, expired), phase)
  {
    hide WithTear;
    var d := OnFlush(c, phase, expired);
    forall lo: int, hi: int
      ensures Within(d.lost, lo, hi) == Within(c.lost, lo, hi) + Shown(c, lo, hi) && Shown(d, lo, hi) == 0
    {
      WithinConcat(c.window.live, c.covered, lo, hi);
      WithinConcat(c.lost, c.window.live + c.covered, lo, hi);
    }
    hide Shown;
  }

  // Tearing the latest turn, or a lapse.
  lemma LossFacts(q: seq<Beat<Tx>>, u: Tx)
    ensures Grows(q, q + [Lapse]) && TurnTimes(q + [Lapse]) == TurnTimes(q)
    ensures HasTurn(q, u) ==> LostIn(q + [Lapse], u)
    ensures q != [] && q[|q| - 1].Turn? ==>
      var r, n := WithTear(q), |q| - 1;
      && |r| == |q| && r[..n] == q[..n] && r[n] == q[n].(torn := true)
      && Grows(q, r) && TurnTimes(r) == TurnTimes(q)
      && (HasTurn(q[..n], u) ==> LostIn(r, u))
  {
    TurnTimesSnoc(q, Lapse);
    if HasTurn(q, u) {
      var i :| 0 <= i < |q| && Commits(q[i]) && q[i].of == u;
      var r := q + [Lapse];
      assert r[i] == q[i] && Loses(r[|q|]);
    }
    if q != [] && q[|q| - 1].Turn? {
      TearFacts(q, u);
    }
  }

  lemma TearFacts(q: seq<Beat<Tx>>, u: Tx)
    requires q != [] && q[|q| - 1].Turn?
    ensures var r, n := WithTear(q), |q| - 1;
      && |r| == |q| && r[..n] == q[..n] && r[n] == q[n].(torn := true)
      && Grows(q, r) && TurnTimes(r) == TurnTimes(q)
      && (HasTurn(q[..n], u) ==> LostIn(r, u))
  {
    var r, n := WithTear(q), |q| - 1;
    TurnTimesSnoc(q[..n], q[n]);
    TurnTimesSnoc(q[..n], r[n]);
    assert q == q[..n] + [q[n]] && r == q[..n] + [r[n]];
    if HasTurn(q[..n], u) {
      var i :| 0 <= i < n && Commits(q[..n][i]) && q[..n][i].of == u;
      assert r[i] == q[i] && Loses(r[n]);
    }
  }

  lemma FlushGrows(c: Acct, phase: Phase, expired: bool)
    requires Outlined(c, phase)
    ensures Grows(c.beats, OnFlush(c, phase, expired).beats)
    ensures TurnTimes(OnFlush(c, phase, expired).beats) == TurnTimes(c.beats)
  {
    hide HasTurn, LostIn, OverlookedIn, TrimmedIn, TurnTimes, Grows, WithTear;
    var u: Tx :| true;
    LossFacts(c.beats, u);
  }

  lemma FlushLoses(c: Acct, phase: Phase, a: AccountId, expired: bool, u: Tx)
    requires Outlined(c, phase) && Ledger(c, phase, a) && (u in c.window.live || u in c.covered)
    ensures LostIn(OnFlush(c, phase, expired).beats, u)
  {
    hide HasTurn, LostIn, OverlookedIn, TrimmedIn, TurnTimes, Grows, WithTear, From, InTrail;
    LossFacts(c.beats, u);
  }

  lemma OutlinedByFlush(c: Acct, phase: Phase, a: AccountId, expired: bool)
    requires Outlined(c, phase) && Ledger(c, phase, a)
    ensures Outlined(OnFlush(c, phase, expired), phase)
  {
    hide Ledger, HasTurn, LostIn, OverlookedIn, TrimmedIn, TurnTimes, Grows, WithTear;
    var d := OnFlush(c, phase, expired);
    FlushGrows(c, phase, expired);
    OversightsGrow(c, d);
    forall u ensures (HasTurn(c.beats, u) ==> HasTurn(d.beats, u)) && (LostIn(c.beats, u) ==> LostIn(d.beats, u))
                     && (TrimmedIn(c.beats, u) ==> TrimmedIn(d.beats, u)) {
      OutlineGrows(c, d, u);
    }
    forall u | u in c.window.live || u in c.covered ensures LostIn(d.beats, u) {
      FlushLoses(c, phase, a, expired, u);
    }
    if phase.Reads? || phase.Committed? {
      TearFacts(c.beats, phase.tx);
    }
  }

  lemma SightedByFlush(c: Acct, phase: Phase, expired: bool)
    requires Outlined(c, phase) && Sighted(c, phase)
    ensures Sighted(OnFlush(c, phase, expired), phase)
  {
    hide HasTurn, LostIn, OverlookedIn, TrimmedIn, TurnTimes, NoTrim, Marks;
    if phase.Reads? {
      var d := OnFlush(c, phase, expired);
      var q, r := WithFate(c.beats, Entered), WithFate(d.beats, Entered);
      assert Grows(q, r);
      forall lo: int, hi: int | NoTrim(Marks(r), lo, hi) ensures NoTrim(Marks(q), lo, hi) {
        GrownTrims(q, r, lo, hi);
      }
    }
  }

  lemma WatchedByFlush(c: Acct, phase: Phase, a: AccountId, expired: bool)
    requires Watched(c, phase) && Ledger(c, phase, a)
    ensures Watched(OnFlush(c, phase, expired), phase)
  {
    hide Ledger, Summed, Outlined, Sighted, EveryWindow, Grows, WithTear;
    SummedByFlush(c, phase, expired);
    OutlinedByFlush(c, phase, a, expired);
    SightedByFlush(c, phase, expired);
    FlushGrows(c, phase, expired);
    WindowsGrow(c, OnFlush(c, phase, expired));
  }

  lemma SummedByClose(c: Acct, phase: Phase)
    requires Summed(c, phase) && (phase.Reads? || phase.Settled?)
    ensures Summed(OnClose(c, phase), Out)
  {
    hide Shown;
    var d := OnClose(c, phase);
    forall lo: int, hi: int ensures Shown(d, lo, hi) == Shown(c, lo, hi) {
      ShownBy(c, d, lo, hi);
    }
  }

  lemma WatchedByClose(c: Acct, phase: Phase)
    requires Watched(c, phase) && (phase.Reads? || phase.Settled?)
    ensures Watched(OnClose(c, phase), Out)
  {
    hide Summed, HasTurn, LostIn, OverlookedIn, TrimmedIn, TurnTimes, NoTrim, Marks, CallOf;
    SummedByClose(c, phase);
  }

  // --- What the invariant says ---------------------------------------------------------

  // Where the outline hides nothing, nothing is trimmed or overlooked.
  lemma NothingHidden(c: Acct, phase: Phase, lo: int, hi: int)
    requires Outlined(c, phase) && NoEscape(Marks(c.beats), lo, hi)
    ensures NoTrim(Marks(c.beats), lo, hi) && NoneOverlooked(c.overlooked, lo, hi)
  {
    hide HasTurn, LostIn, OverlookedIn, TrimmedIn, TurnTimes, NoEscape, NoTrim, Marks;
    HiddenOrTrimmed(Marks(c.beats), lo, hi);
    forall o | o in c.overlooked ensures !(lo <= o.missed.createdAt <= hi && lo <= o.approval.createdAt <= hi) {
      OversightHides(c.beats, o, lo, hi);
    }
  }
}
