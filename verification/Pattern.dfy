/** The outline of an account's evaluations and losses, and what it hides. One committed transaction is hidden
    from a later one if its entry was omitted, or if between the two the set was lost or an instant more than
    24 hours ahead trimmed the entry. */
module Pattern {
  import opened Domain
  import opened Account

  predicate Loses<T>(b: Beat<T>) { b.Lapse? || b.torn }

  predicate Commits<T>(b: Beat<T>) { b.Turn? && !b.fate.Aborted? }

  // --- On instants -------------------------------------------------------------------

  // From the turn at `i`, something up to but not including `k` takes its entry out of sight.
  ghost predicate Hides(p: seq<Beat<nat>>, i: nat, k: nat)
    requires i < k <= |p| && p[i].Turn?
  {
    || p[i].fate.Omitted?
    || exists m :: i < m < k && (Loses(p[m]) || (p[m].Turn? && p[i].of + DAY < p[m].of))
  }

  predicate Counts(b: Beat<nat>, lo: int, hi: int) { Commits(b) && lo <= b.of <= hi }

  // Of the committed turns in the window none is hidden from a later one.
  ghost predicate NoEscape(p: seq<Beat<nat>>, lo: int, hi: int) {
    forall i, k | 0 <= i < k < |p| && Counts(p[i], lo, hi) && Counts(p[k], lo, hi) :: !Hides(p, i, k)
  }

  // Of the committed turns in the window none is trimmed before a later one.
  ghost predicate NoTrim(p: seq<Beat<nat>>, lo: int, hi: int) {
    forall i, m, k | 0 <= i < m < k < |p| && Counts(p[i], lo, hi) && Counts(p[k], lo, hi) && p[m].Turn? ::
      p[m].of <= p[i].of + DAY
  }

  lemma HiddenOrTrimmed(p: seq<Beat<nat>>, lo: int, hi: int)
    requires NoEscape(p, lo, hi)
    ensures NoTrim(p, lo, hi)
  {
    forall i, m, k | 0 <= i < m < k < |p| && Counts(p[i], lo, hi) && Counts(p[k], lo, hi) && p[m].Turn?
      ensures p[m].of <= p[i].of + DAY
    {
      assert !Hides(p, i, k);
    }
  }

  // No turn omitted, no set lost.
  predicate Unfailing<T(==)>(q: seq<Beat<T>>) { forall b | b in q :: b.Turn? ==> !b.fate.Omitted? }

  predicate Whole<T(==)>(q: seq<Beat<T>>) { forall b | b in q :: !Loses(b) && !b.fate.Omitted? }

  // For the windows of a given length.
  ghost predicate NoEscapeWithin(p: seq<Beat<nat>>, span: nat) {
    forall i, k | 0 <= i < k < |p| && Commits(p[i]) && Commits(p[k]) && Apart(p[i].of, p[k].of) <= span ::
      !Hides(p, i, k)
  }

  lemma WindowsOfSpan(p: seq<Beat<nat>>, span: nat)
    ensures NoEscapeWithin(p, span) <==> forall lo: int, hi: int | hi <= lo + span :: NoEscape(p, lo, hi)
  {
    hide Hides;
    if forall lo: int, hi: int | hi <= lo + span :: NoEscape(p, lo, hi) {
      forall i, k | 0 <= i < k < |p| && Commits(p[i]) && Commits(p[k]) && Apart(p[i].of, p[k].of) <= span
        ensures !Hides(p, i, k)
      {
        var lo, hi := if p[i].of <= p[k].of then p[i].of else p[k].of, if p[i].of <= p[k].of then p[k].of else p[i].of;
        assert NoEscape(p, lo, hi);
        assert Counts(p[i], lo, hi) && Counts(p[k], lo, hi);
      }
    }
  }

  // For the 24 hours that end at or after every instant: nothing can trim them, so only losses hide.
  ghost predicate NoTrailingEscape(p: seq<Beat<nat>>, latest: int) {
    forall i, k | 0 <= i < k < |p| && Commits(p[i]) && Commits(p[k])
                  && latest - DAY <= p[i].of && latest - DAY <= p[k].of ::
      !p[i].fate.Omitted? && forall m | i < m < k :: !Loses(p[m])
  }

  lemma TrailingWindow(p: seq<Beat<nat>>, latest: int)
    requires forall b | b in p && b.Turn? :: b.of <= latest
    ensures NoTrailingEscape(p, latest) <==> NoEscape(p, latest - DAY, latest)
  {
    forall i, k | 0 <= i < k < |p| && p[i].Turn? && latest - DAY <= p[i].of
      ensures Hides(p, i, k) <==> p[i].fate.Omitted? || exists m :: i < m < k && Loses(p[m])
    {
      assert forall m | i < m < k && p[m].Turn? :: p[m].of <= latest by {
        assert forall m | i < m < k :: p[m] in p;
      }
    }
    forall i | 0 <= i < |p| && p[i].Turn? ensures p[i].of <= latest {
      assert p[i] in p;
    }
  }

  // --- Losses need a set to lose ---------------------------------------------------------

  function Since(ts: seq<nat>, start: int): seq<nat> {
    if ts == [] then []
    else Since(ts[..|ts| - 1], start) + if start <= ts[|ts| - 1] then [ts[|ts| - 1]] else []
  }

  // The instants of the entries the set holds, if the table never answers a read.
  function HeldAfter(held: seq<nat>, b: Beat<nat>): seq<nat> {
    match b
    case Lapse => []
    case Turn(t, fate, torn) => (if torn then [] else Since(held, t - DAY)) + if fate.Entered? then [t] else []
  }

  function Held(p: seq<Beat<nat>>): seq<nat> {
    if p == [] then [] else HeldAfter(Held(p[..|p| - 1]), p[|p| - 1])
  }

  predicate MayLose(held: seq<nat>, b: Beat<nat>) {
    match b case Lapse => held != [] case Turn(t, _, torn) => torn ==> Since(held, t - DAY) != []
  }

  // Every loss finds an entry of an earlier turn in the set.
  predicate Possible(p: seq<Beat<nat>>) { forall n | 0 <= n < |p| :: MayLose(Held(p[..n]), p[n]) }

  // --- Straddling instants -------------------------------------------------------------

  // No third instant lies within `span` of a first one that a second, more than 24 hours ahead, trimmed.
  ghost predicate NoStraddle(ts: seq<nat>, span: nat) {
    forall i, j, k | 0 <= i < j < k < |ts| && ts[i] + DAY < ts[j] :: Apart(ts[i], ts[k]) > span
  }

  lemma OrderedNeverStraddles(ts: seq<nat>, span: nat)
    requires Ordered(ts) && span <= DAY
    ensures NoStraddle(ts, span)
  {
    forall i, j, k | 0 <= i < j < k < |ts| && ts[i] + DAY < ts[j] ensures Apart(ts[i], ts[k]) > span {
      assert ts[j] <= ts[k];
    }
  }

  // All turns committed and entered, nothing lost.
  function AllEntered(ts: seq<nat>): seq<Beat<nat>> {
    seq(|ts|, n requires 0 <= n < |ts| => Turn(ts[n], Entered, false))
  }

  // Without losses and omissions, trimming is all that hides.
  lemma WholeIsTrimmedOnly(p: seq<Beat<nat>>, lo: int, hi: int)
    requires Whole(p) && NoTrim(p, lo, hi)
    ensures NoEscape(p, lo, hi)
  {
    assert forall n | 0 <= n < |p| :: p[n] in p && !Loses(p[n]);
  }

  // A straddle of committed turns hides the first from the last.
  lemma StraddleHides(ts: seq<nat>, span: nat)
    requires NoEscapeWithin(AllEntered(ts), span)
    ensures NoStraddle(ts, span)
  {
    var p := AllEntered(ts);
    forall i, j, k | 0 <= i < j < k < |ts| && ts[i] + DAY < ts[j] ensures Apart(ts[i], ts[k]) > span {
      assert Commits(p[i]) && Commits(p[k]) && p[j].Turn? && p[i].of + DAY < p[j].of;
      assert Hides(p, i, k);
    }
  }

  // --- Other fates ---------------------------------------------------------------------------

  // The same instants and losses, whatever was aborted or omitted.
  predicate SameInstants(p: seq<Beat<nat>>, q: seq<Beat<nat>>) {
    |p| == |q| && forall n | 0 <= n < |p| ::
      p[n].Turn? == q[n].Turn? && (p[n].Turn? ==> p[n].of == q[n].of && p[n].torn == q[n].torn)
  }

  // If nothing is hidden with every turn committed, nothing is with some of them aborted.
  lemma FewerCommits(p: seq<Beat<nat>>, q: seq<Beat<nat>>, span: nat)
    requires SameInstants(p, q) && Unfailing(p) && NoEscapeWithin(q, span)
    requires forall b | b in q && b.Turn? :: b.fate.Entered?
    ensures NoEscapeWithin(p, span)
  {
    forall i, k | 0 <= i < k < |p| && Commits(p[i]) && Commits(p[k]) && Apart(p[i].of, p[k].of) <= span
      ensures !Hides(p, i, k)
    {
      assert p[i] in p && q[i] in q && q[k] in q && Commits(q[i]) && Commits(q[k]);
      assert !Hides(q, i, k);
      forall m | i < m < k ensures !(Loses(p[m]) || (p[m].Turn? && p[i].of + DAY < p[m].of)) {
        assert !(Loses(q[m]) || (q[m].Turn? && q[i].of + DAY < q[m].of));
      }
    }
  }

  // An expiry right after a committed turn always finds its entry.
  lemma LapsesAfterTurns(q: seq<Beat<nat>>)
    requires forall b | b in q && b.Turn? :: b.fate.Entered? && !b.torn
    requires forall n | 0 <= n < |q| && q[n].Lapse? :: n > 0 && q[n - 1].Turn?
    ensures Possible(q)
  {
    forall n | 0 <= n < |q| ensures MayLose(Held(q[..n]), q[n]) {
      assert q[n] in q;
      if q[n].Lapse? {
        assert q[n - 1] in q && q[..n][..n - 1] == q[..n - 1];
      }
    }
  }

  // --- A bounded lag ---------------------------------------------------------------------

  // Each later turn is dated at most `lag` before any earlier one, and within `lag` of 24 hours after every
  // committed turn that a loss in between took away.
  ghost predicate Spaced(p: seq<Beat<nat>>, lag: nat) {
    && (forall m, k | 0 <= m < k < |p| && p[m].Turn? && p[k].Turn? :: p[m].of <= p[k].of + lag)
    && (forall i, m, k | 0 <= i < m < k < |p| && Commits(p[i]) && Loses(p[m]) && p[k].Turn? ::
          p[i].of + DAY < p[k].of + lag)
  }

  lemma SpacedSnoc(p: seq<Beat<nat>>, t: nat, lag: nat)
    requires Spaced(p, lag) && forall m | 0 <= m < |p| && p[m].Turn? :: p[m].of <= t + lag
    requires forall i, m | 0 <= i < m < |p| && Commits(p[i]) && Loses(p[m]) :: p[i].of + DAY < t + lag
    ensures Spaced(p + [Turn(t, Aborted, false)], lag)
  {
    hide Commits, Loses;
    var r := p + [Turn(t, Aborted, false)];
    assert forall i | 0 <= i < |p| :: r[i] == p[i];
  }

  lemma SpacedNeverEscapes(p: seq<Beat<nat>>, lag: nat, span: nat)
    requires Spaced(p, lag) && Unfailing(p) && span + lag <= DAY
    ensures NoEscapeWithin(p, span)
  {
    forall i, k | 0 <= i < k < |p| && Commits(p[i]) && Commits(p[k]) && Apart(p[i].of, p[k].of) <= span
      ensures !Hides(p, i, k)
    {
      assert p[i] in p;
      if Hides(p, i, k) {
        var m :| i < m < k && (Loses(p[m]) || (p[m].Turn? && p[i].of + DAY < p[m].of));
        assert false;
      }
    }
  }

  // --- On transactions -----------------------------------------------------------------

  function Mark(b: Beat<Tx>): Beat<nat> {
    match b case Lapse => Lapse case Turn(tx, fate, torn) => Turn(tx.createdAt, fate, torn)
  }

  function Marks(q: seq<Beat<Tx>>): seq<Beat<nat>> { seq(|q|, n requires 0 <= n < |q| => Mark(q[n])) }

  // The instants of the turns.
  function TurnTimes(q: seq<Beat<Tx>>): seq<nat> {
    if q == [] then []
    else
      var last := q[|q| - 1];
      TurnTimes(q[..|q| - 1]) + if last.Turn? then [last.of.createdAt] else []
  }

  lemma TurnTimesPlace(q: seq<Beat<Tx>>, i: nat)
    requires i < |q| && q[i].Turn?
    ensures var n := |TurnTimes(q[..i])|; n < |TurnTimes(q)| && TurnTimes(q)[n] == q[i].of.createdAt
    decreases |q|
  {
    var r := q[..|q| - 1];
    if i < |r| {
      TurnTimesPlace(r, i);
      assert r[..i] == q[..i];
    }
  }

  lemma {:induction false} TurnTimesLonger(q: seq<Beat<Tx>>, i: nat, j: nat)
    requires i < j <= |q| && q[i].Turn?
    ensures |TurnTimes(q[..i])| < |TurnTimes(q[..j])|
  {
    assert q[..j][..j - 1] == q[..j - 1];
    if i < j - 1 {
      TurnTimesLonger(q, i, j - 1);
    }
  }

  // Instants that straddle nothing trim nothing, whatever is lost or aborted between them.
  lemma StraddlesTrim(q: seq<Beat<Tx>>, span: nat, lo: int, hi: int)
    requires NoStraddle(TurnTimes(q), span) && hi <= lo + span
    ensures NoTrim(Marks(q), lo, hi)
  {
    hide TurnTimes;
    var p := Marks(q);
    forall i, m, k | 0 <= i < m < k < |p| && Counts(p[i], lo, hi) && Counts(p[k], lo, hi) && p[m].Turn?
      ensures p[m].of <= p[i].of + DAY
    {
      TurnTimesPlace(q, i);
      TurnTimesPlace(q, m);
      TurnTimesPlace(q, k);
      TurnTimesLonger(q, i, m);
      TurnTimesLonger(q, m, k);
    }
  }

  lemma EnteredBeats(q: seq<Beat<Tx>>, ts: seq<nat>)
    requires Marks(q) == AllEntered(ts)
    ensures |q| == |ts| && forall n | 0 <= n < |q| :: q[n].Turn? && q[n] == Turn(q[n].of, Entered, false)
    ensures forall n | 0 <= n < |q| && q[n].Turn? :: q[n].of.createdAt == ts[n]
  {
    assert |q| == |Marks(q)| == |ts|;
    assert forall n | 0 <= n < |q| :: Marks(q)[n] == Mark(q[n]) == Turn(ts[n], Entered, false);
  }

  lemma {:induction false} TimesOfTurns(q: seq<Beat<Tx>>, ts: seq<nat>)
    requires |q| == |ts| && forall n | 0 <= n < |q| :: q[n].Turn? && q[n].of.createdAt == ts[n]
    ensures TurnTimes(q) == ts
  {
    if q != [] {
      TimesOfTurns(q[..|q| - 1], ts[..|q| - 1]);
    }
  }

  lemma TimesOfEntered(q: seq<Beat<Tx>>, ts: seq<nat>)
    requires Marks(q) == AllEntered(ts)
    ensures TurnTimes(q) == ts && Whole(q)
  {
    hide TurnTimes, Marks, AllEntered;
    EnteredBeats(q, ts);
    TimesOfTurns(q, ts);
  }

  // The transaction has a committed turn.
  ghost predicate HasTurn(q: seq<Beat<Tx>>, u: Tx) {
    exists i :: 0 <= i < |q| && Commits(q[i]) && q[i].of == u
  }

  // It has one whose entry was omitted, or after which the set was lost.
  ghost predicate LostIn(q: seq<Beat<Tx>>, u: Tx) {
    exists i :: 0 <= i < |q| && Commits(q[i]) && q[i].of == u
                && (q[i].fate.Omitted? || exists m :: i < m < |q| && Loses(q[m]))
  }

  // The approving turn has come after the missed one's entry was omitted or lost.
  ghost predicate OverlookedIn(q: seq<Beat<Tx>>, o: Oversight) {
    exists k :: 0 <= k < |q| && Commits(q[k]) && q[k].of == o.approval && LostIn(q[..k], o.missed)
  }

  lemma OversightHides(q: seq<Beat<Tx>>, o: Oversight, lo: int, hi: int)
    requires NoEscape(Marks(q), lo, hi) && OverlookedIn(q, o)
    ensures !(lo <= o.missed.createdAt <= hi && lo <= o.approval.createdAt <= hi)
  {
    var k :| 0 <= k < |q| && Commits(q[k]) && q[k].of == o.approval && LostIn(q[..k], o.missed);
    var r := q[..k];
    var i :| 0 <= i < |r| && Commits(r[i]) && r[i].of == o.missed
             && (r[i].fate.Omitted? || exists m :: i < m < |r| && Loses(r[m]));
    var p := Marks(q);
    assert p[i] == Mark(q[i]) && p[k] == Mark(q[k]);
    if m :| i < m < |r| && Loses(r[m]) {
      assert Loses(p[m]);
    }
    assert Hides(p, i, k);
    assert Counts(p[i], lo, hi) <==> lo <= o.missed.createdAt <= hi;
    assert Counts(p[k], lo, hi) <==> lo <= o.approval.createdAt <= hi;
  }

  // It has one after which an instant more than 24 hours ahead was read.
  ghost predicate TrimmedIn(q: seq<Beat<Tx>>, u: Tx) {
    exists i, m :: 0 <= i < m < |q| && Commits(q[i]) && q[i].of == u
                   && q[m].Turn? && u.createdAt + DAY < q[m].of.createdAt
  }

  // --- Growth ------------------------------------------------------------------------------

  predicate Outdoes(b: Beat<Tx>, c: Beat<Tx>) {
    match b
    case Lapse => c.Lapse?
    case Turn(tx, fate, torn) =>
      c.Turn? && c.of == tx && (torn ==> c.torn) && (fate != Aborted ==> c.fate != Aborted)
      && (fate == Omitted ==> c.fate == Omitted)
  }

  // The outline goes on, and what it already says stands.
  ghost predicate Grows(q: seq<Beat<Tx>>, r: seq<Beat<Tx>>) {
    |q| <= |r| && forall i | 0 <= i < |q| :: Outdoes(q[i], r[i])
  }

  lemma GrownTurn(q: seq<Beat<Tx>>, r: seq<Beat<Tx>>, u: Tx)
    requires Grows(q, r) && HasTurn(q, u)
    ensures HasTurn(r, u)
  {
    var i :| 0 <= i < |q| && Commits(q[i]) && q[i].of == u;
    assert Outdoes(q[i], r[i]);
  }

  lemma GrownLost(q: seq<Beat<Tx>>, r: seq<Beat<Tx>>, u: Tx)
    requires Grows(q, r) && LostIn(q, u)
    ensures LostIn(r, u)
  {
    var i :| 0 <= i < |q| && Commits(q[i]) && q[i].of == u
             && (q[i].fate.Omitted? || exists m :: i < m < |q| && Loses(q[m]));
    assert Outdoes(q[i], r[i]);
    if m :| i < m < |q| && Loses(q[m]) {
      assert Outdoes(q[m], r[m]) && Loses(r[m]);
    }
  }

  lemma GrownTrimmed(q: seq<Beat<Tx>>, r: seq<Beat<Tx>>, u: Tx)
    requires Grows(q, r) && TrimmedIn(q, u)
    ensures TrimmedIn(r, u)
  {
    var i, m :| 0 <= i < m < |q| && Commits(q[i]) && q[i].of == u
                && q[m].Turn? && u.createdAt + DAY < q[m].of.createdAt;
    assert Outdoes(q[i], r[i]) && Outdoes(q[m], r[m]);
  }

  lemma GrownOversight(q: seq<Beat<Tx>>, r: seq<Beat<Tx>>, o: Oversight)
    requires Grows(q, r) && OverlookedIn(q, o)
    ensures OverlookedIn(r, o)
  {
    hide LostIn;
    var k :| 0 <= k < |q| && Commits(q[k]) && q[k].of == o.approval && LostIn(q[..k], o.missed);
    assert Outdoes(q[k], r[k]);
    assert forall i | 0 <= i < k :: q[..k][i] == q[i] && r[..k][i] == r[i];
    assert Grows(q[..k], r[..k]);
    GrownLost(q[..k], r[..k], o.missed);
  }

  // What a longer outline does not trim, a shorter one did not.
  lemma GrownTrims(q: seq<Beat<Tx>>, r: seq<Beat<Tx>>, lo: int, hi: int)
    requires Grows(q, r) && NoTrim(Marks(r), lo, hi)
    ensures NoTrim(Marks(q), lo, hi)
  {
    var p, s := Marks(q), Marks(r);
    forall i, m, k | 0 <= i < m < k < |p| && Counts(p[i], lo, hi) && Counts(p[k], lo, hi) && p[m].Turn?
      ensures p[m].of <= p[i].of + DAY
    {
      assert Outdoes(q[i], r[i]) && Outdoes(q[m], r[m]) && Outdoes(q[k], r[k]);
      assert Counts(s[i], lo, hi) && Counts(s[k], lo, hi) && s[m].Turn?;
    }
  }

  lemma GrowsTransitively(q: seq<Beat<Tx>>, r: seq<Beat<Tx>>, s: seq<Beat<Tx>>)
    requires Grows(q, r) && Grows(r, s)
    ensures Grows(q, s)
  {
    forall i | 0 <= i < |q| ensures Outdoes(q[i], s[i]) {
      assert Outdoes(q[i], r[i]) && Outdoes(r[i], s[i]);
    }
  }
}
