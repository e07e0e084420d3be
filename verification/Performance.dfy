/** Playing an outline: one evaluator takes its beats one after the other, and the set, the outline and the log
    come out as written. */
module Performance {
  import opened Domain
  import opened Sums
  import opened History
  import opened Context
  import opened Window
  import opened Account
  import opened Pattern
  import opened Pipeline
  import opened Machine
  import opened Interleaving
  import opened Pacing
  import opened Solo
  import opened Stage

  // --- The actions of one beat ---------------------------------------------------------------

  function LossActions(a: AccountId): seq<Action> { [Tick(PAUSE), ExpireVolume(a)] }

  function FateActions(fate: Fate): seq<Action> {
    match fate
    case Aborted => [FailBeforeCommit(0)]
    case Entered => [CountSenders(0), FetchStats(0), Commit(0), AddVolume(0), AddSender(0), Unlock(0)]
    case Omitted => [CountSenders(0), FetchStats(0), Commit(0), AddVolumeFails(0), Unlock(0)]
  }

  function BeatActions(a: AccountId, b: Beat<Tx>): seq<Action> {
    match b
    case Lapse => LossActions(a)
    case Turn(tx, fate, torn) =>
      [TryLock(0, tx), ReadVolume(0)] + (if torn then LossActions(a) else []) + FateActions(fate)
  }

  function Script(a: AccountId, q: seq<Beat<Tx>>): seq<Action> {
    if q == [] then [] else Script(a, q[..|q| - 1]) + BeatActions(a, q[|q| - 1])
  }

  // What the set then holds.
  function KeptFor(left: seq<Tx>, tx: Tx): seq<Tx> { Kept(left, tx.createdAt - DAY) }

  function LeftBy(left: seq<Tx>, b: Beat<Tx>): seq<Tx> {
    match b
    case Lapse => []
    case Turn(tx, fate, torn) => (if torn then [] else KeptFor(left, tx)) + if fate.Entered? then [tx] else []
  }

  function Left(q: seq<Beat<Tx>>): seq<Tx> {
    if q == [] then [] else LeftBy(Left(q[..|q| - 1]), q[|q| - 1])
  }

  // A loss needs a set to lose.
  predicate Losable(left: seq<Tx>, b: Beat<Tx>) {
    match b case Lapse => left != [] case Turn(tx, _, torn) => torn ==> KeptFor(left, tx) != []
  }

  // --- Running one beat ------------------------------------------------------------------------

  lemma StepsTwo(s: State, x: Action, y: Action)
    ensures Steps(s, [x]) == Step(s, x) && Steps(s, [x, y]) == Step(Step(s, x), y)
  {
    hide Step;
    assert [x, y][..1] == [x] && [x][..0] == [];
  }

  lemma StepsThree(s: State, x: Action, y: Action, z: Action)
    ensures Steps(s, [x, y, z]) == Step(Step(Step(s, x), y), z)
  {
    hide Step;
    StepsTwo(s, x, y);
    assert [x, y, z][..2] == [x, y];
  }

  // The account after the read, and its loss if the turn is torn.
  ghost function ReadTorn(c: Acct, tx: Tx, torn: bool, now: int): Acct {
    var (d, m) := OnRead(c, tx, map[], now);
    if torn then OnFlush(d, Reads(tx, m), true) else d
  }

  lemma ReadTornShape(c: Acct, tx: Tx, torn: bool, now: int)
    requires c.window.marker.None?
    ensures var d := ReadTorn(c, tx, torn, now);
      && d.window == Window(None, if torn then [] else KeptFor(c.window.live, tx))
      && d.beats == c.beats + [Turn(tx, Aborted, torn)]
  {
    hide OnRead;
    ReadOnEmpty(c, tx, now);
  }

  lemma ReadRuns(s: State, a: AccountId, c: Acct, tx: Tx, torn: bool)
    requires Standing(s, a, Idle, c, tx.id) && tx.from == a && tx.to == PEER
    requires torn ==> KeptFor(c.window.live, tx) != []
    ensures var m := OnRead(c, tx, map[], s.now).1;
      var t := Steps(s, [TryLock(0, tx), ReadVolume(0)] + if torn then LossActions(a) else []);
      && Standing(t, a, Metered(tx, m), ReadTorn(c, tx, torn, s.now), tx.id + 1)
      && t.pipe == s.pipe && t.now == s.now + (if torn then PAUSE else 0)
  {
    hide Step, Steps, Standing, OnRead, Approved, OnFlush, KeptFor;
    StandsUnmarked(s, a, Idle, c, tx.id);
    StepsTwo(s, TryLock(0, tx), ReadVolume(0));
    StandsLocked(s, a, c, tx);
    StandsRead(Step(s, TryLock(0, tx)), a, c, tx, tx.id + 1);
    var q := [TryLock(0, tx), ReadVolume(0)];
    var t := Steps(s, q);
    var (d, m) := OnRead(c, tx, map[], s.now);
    if torn {
      ReadHolds(c, tx, s.now);
      StepsConcat(s, q, LossActions(a));
      StepsTwo(t, Tick(PAUSE), ExpireVolume(a));
      StandsExpired(t, a, Metered(tx, m), d, tx.id + 1);
    } else {
      assert q + [] == q;
    }
  }

  lemma ReadHolds(c: Acct, tx: Tx, now: int)
    requires c.window.marker.None? && KeptFor(c.window.live, tx) != []
    ensures OnRead(c, tx, map[], now).0.window.Exists()
  {
    hide OnRead;
    ReadOnEmpty(c, tx, now);
  }

  lemma StandsUnmarked(s: State, a: AccountId, pc: Pc, c: Acct, n: nat)
    requires Standing(s, a, pc, c, n)
    ensures c.window.marker.None?
  {
  }

  lemma CommitRuns(s: State, a: AccountId, c: Acct, tx: Tx, m: Metrics, n: nat)
    requires Standing(s, a, Metered(tx, m), c, n)
    ensures var t := Steps(s, [CountSenders(0), FetchStats(0), Commit(0)]);
      && PcOf(t, 0).Saved? && t.now == s.now + 1
      && Standing(t, a, Saved(tx, m, PcOf(t, 0).ctx), AcctOf(t, a), n)
      && (exists status :: AcctOf(t, a) == OnCommit(c, tx, m, status))
      && Approved(t, a) == Approved(s, a) + if Passes(tx, m) then [tx] else []
  {
    hide Step, Steps, Standing, Approved, OnCommit, Decide, Plain, Passes;
    var r := Step(Step(s, CountSenders(0)), FetchStats(0));
    StepsThree(s, CountSenders(0), FetchStats(0), Commit(0));
    StandsReady(s, a, c, tx, m, n);
    var ctx := PcOf(r, 0).ctx;
    StandsSaved(r, a, c, tx, m, ctx, n);
    StandsAt(Step(r, Commit(0)), a, Saved(tx, m, ctx), OnCommit(c, tx, m, Decide(tx, ctx)), n);
    SamePipe(s, r, a);
  }

  lemma StandsAt(s: State, a: AccountId, pc: Pc, c: Acct, n: nat)
    requires Standing(s, a, pc, c, n)
    ensures PcOf(s, 0) == pc && AcctOf(s, a) == c
  {
  }

  lemma SamePipe(s: State, t: State, a: AccountId)
    requires t.pipe == s.pipe
    ensures Approved(t, a) == Approved(s, a)
  {
  }

  // What the ending makes of the account.
  lemma EntersShape(c: Acct, tx: Tx, m: Metrics, status: TransactionStatus, now: int, torn: bool)
    requires c.beats != [] && c.beats[|c.beats| - 1] == Turn(tx, Aborted, torn)
    ensures var q, d := c.beats[..|c.beats| - 1], OnCommit(c, tx, m, status);
      && (var e := OnClose(OnAdd(d, tx, now), Settled(tx, m, true));
          e.window == c.window.Add(tx) && e.beats == q + [Turn(tx, Entered, torn)])
      && (var e := OnClose(OnDrop(d, tx), Settled(tx, m, false));
          e.window == c.window && e.beats == q + [Turn(tx, Omitted, torn)])
      && (var e := OnClose(c, Reads(tx, m)); e.window == c.window && e.beats == c.beats)
  {
    hide InTrail, Passes, CallOf;
  }

  // The rest of a turn after its read.
  lemma FateRuns(s: State, a: AccountId, c: Acct, tx: Tx, m: Metrics, n: nat, fate: Fate, torn: bool)
    requires Standing(s, a, Metered(tx, m), c, n)
    requires c.beats != [] && c.beats[|c.beats| - 1] == Turn(tx, Aborted, torn)
    ensures var t := Steps(s, FateActions(fate)); var d := AcctOf(t, a);
      && Standing(t, a, Idle, d, n) && t.now == s.now + (if fate.Aborted? then 0 else 1)
      && d.window == (if fate.Entered? then c.window.Add(tx) else c.window)
      && d.beats == c.beats[..|c.beats| - 1] + [Turn(tx, fate, torn)]
      && Approved(t, a) == Approved(s, a) + if fate != Aborted && Passes(tx, m) then [tx] else []
  {
    hide Step, Steps, Standing, Approved, OnCommit, OnAdd, OnDrop, OnClose, Passes;
    var q := [CountSenders(0), FetchStats(0), Commit(0)];
    var t, r := Steps(s, FateActions(fate)), Steps(s, q);
    if fate.Aborted? {
      StepsTwo(s, FailBeforeCommit(0), FailBeforeCommit(0));
      StandsAborted(s, a, c, tx, m, n);
      StandsAt(t, a, Idle, OnClose(c, Reads(tx, m)), n);
      SamePipe(s, t, a);
      EntersShape(c, tx, m, APPROVED, s.now, torn);
      assert c.beats == c.beats[..|c.beats| - 1] + [c.beats[|c.beats| - 1]];
    } else {
      CommitRuns(s, a, c, tx, m, n);
      var status :| AcctOf(r, a) == OnCommit(c, tx, m, status);
      EntersShape(c, tx, m, status, r.now, torn);
      if fate.Entered? {
        EnterRuns(r, a, AcctOf(r, a), tx, m, n);
        StepsConcat(s, q, [AddVolume(0), AddSender(0), Unlock(0)]);
        assert q + [AddVolume(0), AddSender(0), Unlock(0)] == FateActions(fate);
      } else {
        OmitRuns(r, a, AcctOf(r, a), tx, m, n);
        StepsConcat(s, q, [AddVolumeFails(0), Unlock(0)]);
        assert q + [AddVolumeFails(0), Unlock(0)] == FateActions(fate);
      }
    }
  }

  lemma EnterRuns(s: State, a: AccountId, c: Acct, tx: Tx, m: Metrics, n: nat)
    requires PcOf(s, 0).Saved? && Standing(s, a, Saved(tx, m, PcOf(s, 0).ctx), c, n)
    ensures var t := Steps(s, [AddVolume(0), AddSender(0), Unlock(0)]);
      && AcctOf(t, a) == OnClose(OnAdd(c, tx, s.now), Settled(tx, m, true))
      && Standing(t, a, Idle, AcctOf(t, a), n) && t.now == s.now && Approved(t, a) == Approved(s, a)
  {
    hide Step, Steps, Standing, Approved, OnAdd, OnClose;
    var r := Step(Step(s, AddVolume(0)), AddSender(0));
    StepsThree(s, AddVolume(0), AddSender(0), Unlock(0));
    StandsCached(s, a, c, tx, m, PcOf(s, 0).ctx, n);
    StandsOutside(r, a, OnAdd(c, tx, s.now), tx, m, true, n);
    StandsAt(Step(r, Unlock(0)), a, Idle, OnClose(OnAdd(c, tx, s.now), Settled(tx, m, true)), n);
    SamePipe(s, Step(r, Unlock(0)), a);
  }

  lemma OmitRuns(s: State, a: AccountId, c: Acct, tx: Tx, m: Metrics, n: nat)
    requires PcOf(s, 0).Saved? && Standing(s, a, Saved(tx, m, PcOf(s, 0).ctx), c, n)
    ensures var t := Steps(s, [AddVolumeFails(0), Unlock(0)]);
      && AcctOf(t, a) == OnClose(OnDrop(c, tx), Settled(tx, m, false))
      && Standing(t, a, Idle, AcctOf(t, a), n) && t.now == s.now && Approved(t, a) == Approved(s, a)
  {
    hide Step, Steps, Standing, Approved, OnDrop, OnClose;
    var r := Step(s, AddVolumeFails(0));
    StepsTwo(s, AddVolumeFails(0), Unlock(0));
    StandsDropped(s, a, c, tx, m, PcOf(s, 0).ctx, n);
    StandsOutside(r, a, OnDrop(c, tx), tx, m, false, n);
    StandsAt(Step(r, Unlock(0)), a, Idle, OnClose(OnDrop(c, tx), Settled(tx, m, false)), n);
    SamePipe(s, Step(r, Unlock(0)), a);
  }

  // Between evaluations; the set holds what the outline leaves in it.
  ghost predicate Performed(s: State, a: AccountId, q: seq<Beat<Tx>>) {
    && Standing(s, a, Idle, AcctOf(s, a), |q|)
    && AcctOf(s, a).window == Window(None, Left(q)) && AcctOf(s, a).beats == q
  }

  predicate Numbered(b: Beat<Tx>, a: AccountId, n: nat) {
    b.Turn? ==> b.of.from == a && b.of.to == PEER && b.of.id == n
  }

  lemma LeftSnoc(q: seq<Beat<Tx>>, b: Beat<Tx>)
    ensures Left(q + [b]) == LeftBy(Left(q), b)
  {
    assert (q + [b])[..|q|] == q;
  }

  // What one beat adds to the log.
  function Passed(left: seq<Tx>, b: Beat<Tx>): seq<Tx> {
    if Commits(b) && Total(KeptFor(left, b.of)) + b.of.amount <= LIMIT then [b.of] else []
  }

  // How long it takes.
  function Lasts(b: Beat<Tx>): nat { (if Loses(b) then PAUSE else 0) + if Commits(b) then 1 else 0 }

  lemma TurnRuns(s: State, a: AccountId, q: seq<Beat<Tx>>, tx: Tx, fate: Fate, torn: bool)
    requires Performed(s, a, q) && Numbered(Turn(tx, fate, torn), a, |q|) && Losable(Left(q), Turn(tx, fate, torn))
    ensures var b := Turn(tx, fate, torn); var t := Steps(s, BeatActions(a, b));
      Performed(t, a, q + [b]) && Approved(t, a) == Approved(s, a) + Passed(Left(q), b) && t.now == s.now + Lasts(b)
  {
    hide Step, Steps, Standing, Approved, OnRead, ReadTorn, Left, KeptFor, FateActions, LossActions;
    var c, b := AcctOf(s, a), Turn(tx, fate, torn);
    var start := [TryLock(0, tx), ReadVolume(0)] + if torn then LossActions(a) else [];
    var r, m := Steps(s, start), OnRead(c, tx, map[], s.now).1;
    ReadRuns(s, a, c, tx, torn);
    ReadTornShape(c, tx, torn, s.now);
    var d := ReadTorn(c, tx, torn, s.now);
    assert d.beats[..|d.beats| - 1] == q;
    FateRuns(r, a, d, tx, m, |q| + 1, fate, torn);
    StepsConcat(s, start, FateActions(fate));
    SamePipe(s, r, a);
    LeftSnoc(q, b);
    VolumeIs(c, tx, s.now);
  }

  lemma VolumeIs(c: Acct, tx: Tx, now: int)
    requires c.window.marker.None?
    ensures Passes(tx, OnRead(c, tx, map[], now).1) <==> Total(KeptFor(c.window.live, tx)) + tx.amount <= LIMIT
  {
    hide OnRead;
    ReadOnEmpty(c, tx, now);
  }

  lemma LapseRuns(s: State, a: AccountId, q: seq<Beat<Tx>>)
    requires Performed(s, a, q) && Left(q) != []
    ensures var t := Steps(s, LossActions(a));
      Performed(t, a, q + [Lapse]) && Approved(t, a) == Approved(s, a) && t.now == s.now + PAUSE
  {
    hide Step, Steps, Approved, Left, Standing;
    StepsTwo(s, Tick(PAUSE), ExpireVolume(a));
    StandsExpired(s, a, Idle, AcctOf(s, a), |q|);
    var t := Steps(s, LossActions(a));
    StandsAt(t, a, Idle, OnFlush(AcctOf(s, a), Out, true), |q|);
    StandsLonger(t, a, Idle, AcctOf(t, a), |q|);
    SamePipe(s, t, a);
    LeftSnoc(q, Lapse);
  }

  lemma StandsLonger(s: State, a: AccountId, pc: Pc, c: Acct, n: nat)
    requires Standing(s, a, pc, c, n)
    ensures Standing(s, a, pc, c, n + 1)
  {
  }

  lemma BeatRuns(s: State, a: AccountId, q: seq<Beat<Tx>>, b: Beat<Tx>)
    requires Performed(s, a, q) && Numbered(b, a, |q|) && Losable(Left(q), b)
    ensures var t := Steps(s, BeatActions(a, b));
      Performed(t, a, q + [b]) && Approved(t, a) == Approved(s, a) + Passed(Left(q), b) && t.now == s.now + Lasts(b)
  {
    hide Steps, Performed, Approved, Left;
    match b
    case Lapse => LapseRuns(s, a, q);
    case Turn(tx, fate, torn) => TurnRuns(s, a, q, tx, fate, torn);
  }

  // --- The whole script ----------------------------------------------------------------------

  lemma ScriptSnoc(a: AccountId, q: seq<Beat<Tx>>, b: Beat<Tx>)
    ensures Script(a, q + [b]) == Script(a, q) + BeatActions(a, b)
  {
    assert (q + [b])[..|q|] == q;
  }

  lemma Starts(a: AccountId)
    ensures Performed(BOOT, a, []) && Approved(BOOT, a) == [] && Run(Script(a, [])) == BOOT
  {
  }

  lemma BeatActionsAre(a: AccountId, b: Beat<Tx>)
    ensures !(b.Turn? && b.fate.Omitted?) ==> Reliable(BeatActions(a, b))
    ensures !Loses(b) ==> NoExpiry(BeatActions(a, b))
    ensures forall e, tx | TryLock(e, tx) in BeatActions(a, b) :: b.Turn? && b.of == tx
  {
  }

  lemma NothingFails()
    ensures Reliable([]) && NoExpiry([])
  {
  }

  lemma Conditions(q: seq<Action>, r: seq<Action>)
    ensures Reliable(q) && Reliable(r) ==> Reliable(q + r)
    ensures NoExpiry(q) && NoExpiry(r) ==> NoExpiry(q + r)
  {
  }

  lemma {:induction false} ScriptIs(a: AccountId, q: seq<Beat<Tx>>)
    ensures Unfailing(q) ==> Reliable(Script(a, q))
    ensures Whole(q) ==> NoExpiry(Script(a, q))
    ensures forall e, tx | TryLock(e, tx) in Script(a, q) :: exists b :: b in q && b.Turn? && b.of == tx
  {
    hide BeatActions, Reliable, NoExpiry, Loses;
    if q == [] {
      NothingFails();
    } else {
      var rest, b := q[..|q| - 1], q[|q| - 1];
      ScriptIs(a, rest);
      BeatActionsAre(a, b);
      Conditions(Script(a, rest), BeatActions(a, b));
      assert b in q && forall x | x in rest :: x in q;
    }
  }
}
