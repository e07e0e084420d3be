/** One account: its sorted set, its committed transactions, and the steps an evaluation takes on them.

    The record of the run: `txs` are the committed transactions in order, `verdicts` whether each passed
    the volume rule, `approved` the approved ones; `seen` are the instants read under the lock, `ops` the
    evaluations and losses and `beats` their outline including the evaluation in progress, all in lock
    order. `torn` and `gone` say that the set was lost during the evaluation in progress, before or after
    its own cache write.

    What the sorted set shows: a committed transaction is a live entry, or stands behind the marker
    (`covered`), or was trimmed away (`trimmed`), or is invisible (`lost`: its cache write failed or its
    set was dropped). `unseen` is what was invisible to the latest approval, `blind` whether some approval
    missed a transaction of a trailing window, and `overlooked` what every approval missed. */
module Account {
  import opened Domain
  import opened Sums
  import opened History
  import opened Window

  // One evaluation that got as far as reading the metrics.
  datatype Call = Call(tx: Tx, answer: nat, passed: bool, committed: bool, added: bool)

  // What happens to the set in lock order: it is lost, or one evaluation runs, possibly with a loss
  // between its read and its own cache write.
  datatype Op = Gone | Eval(call: Call, torn: bool)

  // The outline of an evaluation that read the metrics: it was aborted before its commit, or committed and
  // entered into the set, or committed and omitted from it. A torn one lost the set after its read and
  // before its own cache write. A lapse is a loss of the set at any other time.
  datatype Fate = Aborted | Entered | Omitted
  datatype Beat<T> = Turn(of: T, fate: Fate, torn: bool) | Lapse

  // An approval by which a committed transaction was missed.
  datatype Oversight = Oversight(missed: Tx, approval: Tx)

  function Oversights(missed: seq<Tx>, approval: Tx): seq<Oversight> {
    seq(|missed|, n requires 0 <= n < |missed| => Oversight(missed[n], approval))
  }

  datatype Acct = Acct(
    window: Window, deadline: int,
    txs: seq<Tx>, verdicts: seq<bool>, approved: seq<Tx>,
    seen: seq<nat>, ops: seq<Op>, beats: seq<Beat<Tx>>, torn: bool, gone: bool,
    covered: seq<Tx>, trimmed: seq<Tx>, lost: seq<Tx>,
    unseen: seq<Tx>, blind: bool, overlooked: seq<Oversight>,
    base: nat, seeded: bool,
    faults: nat, flushes: nat, ahead: bool, late: bool, expiredUntil: int)

  const NEW: Acct :=
    Acct(EMPTY, 0, [], [], [], [], [], [], false, false, [], [], [], [], false, [], 0, false, 0, 0, false, false, -1)

  // `missed` records what the read did not see, `later` whether the set shows a member dated after it.
  datatype Metrics = Metrics(volume: nat, count: nat, answer: nat, missed: seq<Tx>, later: bool)

  // How far the evaluation that holds the account's lock has got with the account's data.
  datatype Phase =
    | Out
    | Reads(tx: Tx, m: Metrics)
    | Committed(tx: Tx, m: Metrics)
    | Settled(tx: Tx, m: Metrics, added: bool)

  // --- Trailing windows -----------------------------------------------------

  // `s` opens a window that reaches the latest instant seen under the lock within 24 hours.
  ghost predicate InTrail(seen: seq<nat>, s: int) {
    forall i | 0 <= i < |seen| :: seen[i] <= s + DAY
  }

  ghost predicate Ordered(seen: seq<nat>) {
    forall i, j | 0 <= i < j < |seen| :: seen[i] <= seen[j]
  }

  function Apart(x: nat, y: nat): nat { if x <= y then y - x else x - y }

  // The latest turn with another fate, or torn.
  function WithFate(beats: seq<Beat<Tx>>, fate: Fate): seq<Beat<Tx>> {
    if beats == [] || beats[|beats| - 1].Lapse? then beats
    else beats[..|beats| - 1] + [beats[|beats| - 1].(fate := fate)]
  }

  function WithTear(beats: seq<Beat<Tx>>): seq<Beat<Tx>> {
    if beats == [] || beats[|beats| - 1].Lapse? then beats
    else beats[..|beats| - 1] + [beats[|beats| - 1].(torn := true)]
  }

  // The outline ends with the evaluation in progress.
  predicate EndsWith(c: Acct, tx: Tx, fate: Fate) {
    c.beats != [] && c.beats[|c.beats| - 1] == Turn(tx, fate, c.torn)
  }

  // --- What a table read recovers -------------------------------------------

  predicate Projected(u: Tx, h: Table, t: nat) {
    KeyOf(u) in h && t - DAY <= u.createdAt <= t
  }

  // Of the invisible transactions, those the table shows in the window ending at `t`; the table
  // shows a repeated transaction once.
  function Recovered(q: seq<Tx>, h: Table, t: nat): seq<Tx> {
    if q == [] then []
    else
      var r, u := Recovered(q[..|q| - 1], h, t), q[|q| - 1];
      if Projected(u, h, t) && forall v :: v in r ==> KeyOf(v) != KeyOf(u) then r + [u] else r
  }

  function Unrecovered(q: seq<Tx>, h: Table, t: nat): seq<Tx> {
    if q == [] then []
    else
      var rest, r, u := Unrecovered(q[..|q| - 1], h, t), Recovered(q[..|q| - 1], h, t), q[|q| - 1];
      if Projected(u, h, t) && forall v :: v in r ==> KeyOf(v) != KeyOf(u) then rest else rest + [u]
  }

  lemma {:induction false} RecoverySplits(q: seq<Tx>, h: Table, t: nat, s: int)
    ensures From(Recovered(q, h, t), s) + From(Unrecovered(q, h, t), s) == From(q, s)
  {
    if q != [] {
      var p, u := q[..|q| - 1], q[|q| - 1];
      RecoverySplits(p, h, t, s);
      FromSnoc(Recovered(p, h, t), u, s);
      FromSnoc(Unrecovered(p, h, t), u, s);
    }
  }

  lemma {:induction false} RecoveredMembers(q: seq<Tx>, h: Table, t: nat)
    ensures DistinctKeys(Recovered(q, h, t))
    ensures forall u | u in Recovered(q, h, t) :: u in q && Projected(u, h, t)
    ensures forall u | u in Unrecovered(q, h, t) :: u in q
  {
    if q != [] {
      RecoveredMembers(q[..|q| - 1], h, t);
      assert q == q[..|q| - 1] + [q[|q| - 1]];
    }
  }

  // What the table does not recover is outside its window, or has no row, or repeats a recovered one.
  lemma {:induction false} UnrecoveredMembers(q: seq<Tx>, h: Table, t: nat)
    ensures forall u | u in Unrecovered(q, h, t) ::
              u in q && (!Projected(u, h, t) || exists v :: v in Recovered(q, h, t) && KeyOf(v) == KeyOf(u))
  {
    if q != [] {
      var p := q[..|q| - 1];
      UnrecoveredMembers(p, h, t);
      assert q == p + [q[|q| - 1]];
      assert forall v | v in Recovered(p, h, t) :: v in Recovered(q, h, t);
    }
  }

  lemma {:induction false} RecoveredNone(q: seq<Tx>, h: Table, t: nat)
    requires forall u | u in q :: u.createdAt + DAY < t
    ensures Recovered(q, h, t) == []
  {
    if q != [] {
      RecoveredNone(q[..|q| - 1], h, t);
    }
  }

  // --- Steps ------------------------------------------------------------------

  // The metrics read, given the table's answer and what that answer recovers of the invisible ones.
  // `late`: the instant does not lie after an earlier expiry; `ahead`: a seed is dated after the clock.
  function ReadWith(c: Acct, tx: Tx, answer: nat, recovered: seq<Tx>, rest: seq<Tx>, now: int): (Acct, Metrics) {
    var t := tx.createdAt;
    var r := Read(c.window, t, answer);
    var hit := c.window.Exists();
    var lost := if hit then c.lost else rest;
    (c.(window := r.window,
        deadline := if !hit && answer > 0 then now + DAY else c.deadline,
        seen := c.seen + [t],
        beats := c.beats + [Turn(tx, Aborted, false)],
        covered := if !hit then recovered else if r.window.marker.Some? then c.covered else [],
        trimmed := if hit then c.trimmed + TrimmedBy(c.window, c.covered, t - DAY) else c.trimmed,
        lost := lost,
        base := if hit then c.base else |c.txs|,
        seeded := c.seeded || (!hit && answer > 0),
        ahead := c.ahead || (!hit && answer > 0 && now < t),
        late := c.late || t <= c.expiredUntil),
     Metrics(r.volume, r.count, answer, lost, ShowsLater(r.window, t)))
  }

  predicate ShowsLater(w: Window, t: nat) {
    (w.marker.Some? && t < w.marker.value.score) || exists u :: u in w.live && t < u.createdAt
  }

  // What a trim takes out of sight: the old entries, and with an old marker all it stood for.
  function TrimmedBy(w: Window, covered: seq<Tx>, start: int): seq<Tx> {
    Removed(w.live, start) + if w.marker.Some? && w.marker.value.score < start then covered else []
  }

  ghost function Answer(tx: Tx, h: Table): nat { SumAmount(h, tx.from, tx.createdAt - DAY, tx.createdAt) }

  ghost function OnRead(c: Acct, tx: Tx, h: Table, now: int): (Acct, Metrics) {
    ReadWith(c, tx, Answer(tx, h), Recovered(c.lost, h, tx.createdAt), Unrecovered(c.lost, h, tx.createdAt), now)
  }

  lemma ReadShape(c: Acct, tx: Tx, h: Table, now: int)
    ensures var (d, m) := OnRead(c, tx, h, now); var start := tx.createdAt - DAY;
      && d.txs == c.txs && d.seen == c.seen + [tx.createdAt] && m.missed == d.lost
      && d.beats == c.beats + [Turn(tx, Aborted, false)] && d.unseen == c.unseen && d.overlooked == c.overlooked
      && m.later == ShowsLater(d.window, tx.createdAt)
      && m.volume == d.window.Volume() && m.count == d.window.Size()
      && d.verdicts == c.verdicts && d.approved == c.approved && d.faults == c.faults && d.flushes == c.flushes
      && d.deadline == (if !c.window.Exists() && Answer(tx, h) > 0 then now + DAY else c.deadline)
      && d.expiredUntil == c.expiredUntil && m.answer == Answer(tx, h)
      && (c.window.Exists() ==>
            && d.window == c.window.Trim(start) && d.lost == c.lost
            && d.covered == (if d.window.marker.Some? then c.covered else [])
            && d.trimmed == c.trimmed + TrimmedBy(c.window, c.covered, start))
      && (!c.window.Exists() ==>
            && d.window == (if Answer(tx, h) > 0 then Window(Some(Marker(Answer(tx, h), tx.createdAt)), []) else EMPTY)
            && d.lost == Unrecovered(c.lost, h, tx.createdAt) && d.covered == Recovered(c.lost, h, tx.createdAt)
            && d.trimmed == c.trimmed)
  {
    hide Recovered, Unrecovered, Answer, TrimmedBy, Window.Trim, ShowsLater;
  }

  predicate Passes(tx: Tx, m: Metrics) { m.volume + tx.amount <= LIMIT }

  ghost function OnCommit(c: Acct, tx: Tx, m: Metrics, status: TransactionStatus): Acct {
    var yes := status == APPROVED;
    c.(txs := c.txs + [tx],
       verdicts := c.verdicts + [Passes(tx, m)],
       approved := if yes then c.approved + [tx] else c.approved,
       unseen := if yes then m.missed else c.unseen,
       overlooked := if yes then c.overlooked + Oversights(m.missed, tx) else c.overlooked,
       blind := c.blind || (yes && exists u :: u in m.missed && InTrail(c.seen, u.createdAt)),
       beats := WithFate(c.beats, Entered))
  }

  lemma CommitShape(c: Acct, tx: Tx, m: Metrics, status: TransactionStatus)
    ensures var d := OnCommit(c, tx, m, status);
      && d.txs == c.txs + [tx] && d.verdicts == c.verdicts + [Passes(tx, m)]
      && d.seen == c.seen && d.window == c.window && d.base == c.base && d.seeded == c.seeded
      && d.faults == c.faults && d.flushes == c.flushes && d.beats == WithFate(c.beats, Entered)
      && d.unseen == (if status == APPROVED then m.missed else c.unseen)
      && d.overlooked == (if status == APPROVED then c.overlooked + Oversights(m.missed, tx) else c.overlooked)
      && d.approved == (if status == APPROVED then c.approved + [tx] else c.approved)
      && d.covered == c.covered && d.trimmed == c.trimmed && d.lost == c.lost
  {
    hide InTrail, Passes, WithFate, Oversights;
  }

  function OnAdd(c: Acct, tx: Tx, now: int): Acct {
    c.(window := c.window.Add(tx), deadline := now + DAY, ahead := c.ahead || now < tx.createdAt)
  }

  // The cache write failed, or the evaluator died before it: the exception is swallowed.
  function OnDrop(c: Acct, tx: Tx): Acct {
    c.(lost := c.lost + [tx], beats := WithFate(c.beats, Omitted), faults := c.faults + 1)
  }

  function CallOf(phase: Phase): Call
    requires phase.Reads? || phase.Settled?
  {
    Call(phase.tx, phase.m.answer, Passes(phase.tx, phase.m), phase.Settled?, phase.Settled? && phase.added)
  }

  function OnClose(c: Acct, phase: Phase): Acct
    requires phase.Reads? || phase.Settled?
  {
    c.(ops := c.ops + [Eval(CallOf(phase), c.torn)] + (if c.gone then [Gone] else []), torn := false, gone := false)
  }

  // The set goes: by expiry once its deadline has passed, or by data loss at any time.
  function OnFlush(c: Acct, phase: Phase, expired: bool): Acct {
    c.(window := EMPTY, covered := [], lost := c.lost + (c.window.live + c.covered),
       ops := if phase.Out? then c.ops + [Gone] else c.ops,
       beats := if phase.Reads? || phase.Committed? then WithTear(c.beats) else c.beats + [Lapse],
       torn := c.torn || phase.Reads? || phase.Committed?,
       gone := c.gone || phase.Settled?,
       flushes := c.flushes + 1,
       faults := if expired then c.faults else c.faults + 1,
       expiredUntil := if expired && c.deadline > c.expiredUntil then c.deadline else c.expiredUntil)
  }
}
