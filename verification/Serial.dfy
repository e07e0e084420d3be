/** Concurrent evaluations of one account behave as if run one at a time in lock order, with the losses
    of its sorted set at their place in that order. */
module Serial {
  import opened Domain
  import opened Sums
  import opened History
  import opened Window
  import opened Account

  // One whole evaluation, run alone. A torn one loses the set between its read and its cache write.
  function RunOp(w: Window, op: Op): Window {
    match op
    case Gone => EMPTY
    case Eval(call, torn) =>
      var kept := if torn then EMPTY else Read(w, call.tx.createdAt, call.answer).window;
      if call.added then kept.Add(call.tx) else kept
  }

  function RunSerially(ops: seq<Op>): Window {
    if ops == [] then EMPTY else RunOp(RunSerially(ops[..|ops| - 1]), ops[|ops| - 1])
  }

  predicate SerialVerdict(ops: seq<Op>, i: nat)
    requires i < |ops| && ops[i].Eval?
  {
    var call := ops[i].call;
    Read(RunSerially(ops[..i]), call.tx.createdAt, call.answer).volume + call.tx.amount <= LIMIT
  }

  // What the evaluations read, committed and decided, in order.
  function Times(ops: seq<Op>): seq<nat> {
    if ops == [] then []
    else
      var last := ops[|ops| - 1];
      Times(ops[..|ops| - 1]) + if last.Eval? then [last.call.tx.createdAt] else []
  }

  function CommittedTxs(ops: seq<Op>): seq<Tx> {
    if ops == [] then []
    else
      var last := ops[|ops| - 1];
      CommittedTxs(ops[..|ops| - 1]) + if last.Eval? && last.call.committed then [last.call.tx] else []
  }

  function CommittedVerdicts(ops: seq<Op>): seq<bool> {
    if ops == [] then []
    else
      var last := ops[|ops| - 1];
      CommittedVerdicts(ops[..|ops| - 1]) + if last.Eval? && last.call.committed then [last.call.passed] else []
  }

  // The outline of a list of operations.
  function BeatOf(op: Op): Beat<Tx> {
    match op
    case Gone => Lapse
    case Eval(call, torn) =>
      Turn(call.tx, if !call.committed then Aborted else if call.added then Entered else Omitted, torn)
  }

  function BeatsOf(ops: seq<Op>): seq<Beat<Tx>> { seq(|ops|, n requires 0 <= n < |ops| => BeatOf(ops[n])) }

  // No loss anywhere.
  predicate Undisturbed(ops: seq<Op>) { forall op | op in ops :: op.Eval? && !op.torn }

  // --- The invariant -------------------------------------------------------------

  // The set as the evaluation in progress, after the operations before it, should have left it.
  function Expected(c: Acct, phase: Phase): Window {
    var before := RunSerially(c.ops);
    if phase.Out? then before
    else if c.gone then EMPTY
    else
      var kept := if c.torn then EMPTY else Read(before, phase.tx.createdAt, phase.m.answer).window;
      if phase.Settled? && phase.added then kept.Add(phase.tx) else kept
  }

  // The outline of the evaluation in progress.
  function Unfinished(c: Acct, phase: Phase): seq<Beat<Tx>> {
    match phase
    case Out => []
    case Reads(tx, _) => [Turn(tx, Aborted, c.torn)]
    case Committed(tx, _) => [Turn(tx, Entered, c.torn)]
    case Settled(tx, _, added) =>
      [Turn(tx, if added then Entered else Omitted, c.torn)] + if c.gone then [Lapse] else []
  }

  ghost predicate Recorded(c: Acct, phase: Phase) {
    && c.beats == BeatsOf(c.ops) + Unfinished(c, phase)
    && c.seen == Times(c.ops) + (if phase.Out? then [] else [phase.tx.createdAt])
    && c.txs == CommittedTxs(c.ops) + (if phase.Committed? || phase.Settled? then [phase.tx] else [])
    && c.verdicts ==
       CommittedVerdicts(c.ops) + (if phase.Committed? || phase.Settled? then [Passes(phase.tx, phase.m)] else [])
  }

  ghost predicate Judged(ops: seq<Op>) {
    forall i | 0 <= i < |ops| && ops[i].Eval? :: ops[i].call.passed <==> SerialVerdict(ops, i)
  }

  ghost predicate Serialized(c: Acct, phase: Phase) {
    && Recorded(c, phase) && Judged(c.ops)
    && c.window == Expected(c, phase)
    && (!phase.Out? ==> phase.m.volume == Read(RunSerially(c.ops), phase.tx.createdAt, phase.m.answer).volume)
    && (phase.Out? ==> !c.torn && !c.gone) && (phase.Reads? || phase.Committed? ==> !c.gone)
    && (c.flushes == 0 ==> Undisturbed(c.ops) && !c.torn && !c.gone)
  }

  lemma SerializedByRead(c: Acct, tx: Tx, h: Table, now: int)
    requires Serialized(c, Out)
    ensures var (d, m) := OnRead(c, tx, h, now); Serialized(d, Reads(tx, m))
  {
    hide RunSerially, Judged, Recovered, Unrecovered, Answer, TrimmedBy, Times, CommittedTxs, CommittedVerdicts;
  }

  lemma SerializedByCommit(c: Acct, tx: Tx, m: Metrics, status: TransactionStatus)
    requires Serialized(c, Reads(tx, m))
    ensures Serialized(OnCommit(c, tx, m, status), Committed(tx, m))
  {
    hide RunSerially, Judged, Read, Times, CommittedTxs, CommittedVerdicts, InTrail, Passes;
  }

  lemma SerializedByAdd(c: Acct, tx: Tx, m: Metrics, now: int)
    requires Serialized(c, Committed(tx, m))
    ensures Serialized(OnAdd(c, tx, now), Settled(tx, m, true))
  {
    hide RunSerially, Judged, Read, Times, CommittedTxs, CommittedVerdicts, Passes;
  }

  lemma SerializedByDrop(c: Acct, tx: Tx, m: Metrics)
    requires Serialized(c, Committed(tx, m))
    ensures Serialized(OnDrop(c, tx), Settled(tx, m, false))
  {
    hide RunSerially, Judged, Read, Times, CommittedTxs, CommittedVerdicts, Passes;
  }

  // --- Appending an operation ----------------------------------------------------

  lemma Snoc(ops: seq<Op>, op: Op)
    ensures RunSerially(ops + [op]) == RunOp(RunSerially(ops), op)
    ensures Times(ops + [op]) == Times(ops) + if op.Eval? then [op.call.tx.createdAt] else []
    ensures CommittedTxs(ops + [op]) ==
            CommittedTxs(ops) + if op.Eval? && op.call.committed then [op.call.tx] else []
    ensures CommittedVerdicts(ops + [op]) ==
            CommittedVerdicts(ops) + if op.Eval? && op.call.committed then [op.call.passed] else []
  {
    assert (ops + [op])[..|ops|] == ops;
  }

  lemma JudgedSnoc(ops: seq<Op>, op: Op)
    requires Judged(ops)
    requires op.Eval? ==>
      (op.call.passed <==>
       Read(RunSerially(ops), op.call.tx.createdAt, op.call.answer).volume + op.call.tx.amount <= LIMIT)
    ensures Judged(ops + [op])
  {
    hide RunSerially, Read;
    var q := ops + [op];
    forall i | 0 <= i < |q| && q[i].Eval? ensures q[i].call.passed <==> SerialVerdict(q, i) {
      assert q[..i] == if i < |ops| then ops[..i] else ops;
      if i < |ops| {
        assert q[i] == ops[i] && (ops[i].call.passed <==> SerialVerdict(ops, i));
      }
    }
  }

  // A loss in the outline: the evaluation in progress is torn, or a lapse follows it.
  lemma UnfinishedByFlush(c: Acct, phase: Phase, expired: bool)
    requires c.beats == BeatsOf(c.ops) + Unfinished(c, phase)
    requires (phase.Out? ==> !c.torn) && (phase.Settled? ==> !c.gone)
    ensures var d := OnFlush(c, phase, expired); d.beats == BeatsOf(d.ops) + Unfinished(d, phase)
  {
    var d := OnFlush(c, phase, expired);
    if phase.Out? {
      BeatsSnoc(c.ops, Gone);
    }
    if phase.Settled? {
      assert BeatsOf(c.ops) + Unfinished(c, phase) + [Lapse] == BeatsOf(c.ops) + (Unfinished(c, phase) + [Lapse]);
    }
    hide BeatsOf;
  }

  lemma BeatsSnoc(ops: seq<Op>, op: Op)
    ensures BeatsOf(ops + [op]) == BeatsOf(ops) + [BeatOf(op)]
  {
  }

  lemma PresentIsNotGone(c: Acct, phase: Phase)
    requires c.window == Expected(c, phase) && c.window.Exists() && !phase.Out?
    ensures !c.gone
  {
    hide RunSerially, Read;
  }

  lemma ExpectedByFlush(c: Acct, phase: Phase, expired: bool)
    requires (phase.Out? ==> !c.torn && !c.gone) && (phase.Reads? || phase.Committed? ==> !c.gone)
    ensures Expected(OnFlush(c, phase, expired), phase) == EMPTY
  {
    hide RunSerially, Read, WithTear;
    Snoc(c.ops, Gone);
  }

  lemma SerializedByFlush(c: Acct, phase: Phase, expired: bool)
    requires Serialized(c, phase) && c.window.Exists()
    ensures Serialized(OnFlush(c, phase, expired), phase)
  {
    hide RunSerially, Judged, Read, Times, CommittedTxs, CommittedVerdicts, BeatsOf, Unfinished, WithTear, Passes,
      Expected;
    if !phase.Out? {
      PresentIsNotGone(c, phase);
    }
    UnfinishedByFlush(c, phase, expired);
    ExpectedByFlush(c, phase, expired);
    if phase.Out? {
      Snoc(c.ops, Gone);
      JudgedSnoc(c.ops, Gone);
    }
  }

  lemma SerializedByClose(c: Acct, phase: Phase)
    requires Serialized(c, phase) && (phase.Reads? || phase.Settled?)
    ensures Serialized(OnClose(c, phase), Out)
  {
    hide RunSerially, Judged, Read, Times, CommittedTxs, CommittedVerdicts, BeatsOf;
    var op := Eval(CallOf(phase), c.torn);
    BeatsSnoc(c.ops, op);
    BeatsSnoc(c.ops + [op], Gone);
    Snoc(c.ops, op);
    JudgedSnoc(c.ops, op);
    Snoc(c.ops + [op], Gone);
    JudgedSnoc(c.ops + [op], Gone);
    assert c.ops + [op] + [] == c.ops + [op];
  }
}
