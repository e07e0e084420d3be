/** Draining the pipeline ends, and what it ends with depends on nothing but the committed events. */
module Convergence {
  import opened Domain
  import opened Sums
  import opened History
  import opened Pipeline
  import opened Verdict

  // --- Progress -----------------------------------------------------------------

  predicate Quiescent(p: Pipe) { p.pos == |p.wal| && p.offset == |p.topic| }

  // Writes and offset moves still owed to the topic records from `from` on.
  function Work(topic: seq<Event>, from: nat): nat
    decreases |topic| - from
  {
    if from >= |topic| then 0 else 2 + |topic[from].results| + Work(topic, from + 1)
  }

  function Unread(p: Pipe): int { |p.wal| - p.pos }

  function Owed(p: Pipe): int { Work(p.topic, p.offset) - p.stage }

  lemma PositionsInRange(p: Pipe)
    requires Sound(p)
    ensures p.pos <= |p.wal| && p.offset <= |p.topic|
    ensures p.stage > 0 ==> p.offset < |p.topic| && p.stage <= 1 + |p.topic[p.offset].results|
  {
  }

  // While anything is left, a step is possible, and whichever is taken the pair (unread log, owed
  // writes) drops lexicographically.
  lemma Progress(p: Pipe)
    requires Sound(p)
    ensures Unread(p) >= 0 && Owed(p) >= 0
    ensures Quiescent(p) <==> Unread(p) == 0 && Owed(p) == 0
    ensures p.pos < |p.wal| ==> Unread(OnRelay(p)) == Unread(p) - 1
    ensures p.offset < |p.topic| ==> Unread(OnProject(p)) == Unread(p) && Owed(OnProject(p)) == Owed(p) - 1
  {
    hide Sound, KeyOf, RowOf, AKeyOf, ARowOf;
    PositionsInRange(p);
  }

  lemma DrainStepsKeep(p: Pipe)
    requires Sound(p)
    ensures Sound(OnRelay(p)) && Sound(OnProject(p))
    ensures OnRelay(p).wal == OnProject(p).wal == p.wal
    ensures OnRelay(p).rows == OnProject(p).rows == p.rows && OnRelay(p).outbox == OnProject(p).outbox == p.outbox
  {
    hide Sound;
    SoundByRelay(p);
    SoundByProject(p);
  }

  ghost function Drain(p: Pipe): Pipe
    requires Sound(p)
    decreases Unread(p), Owed(p)
  {
    Progress(p);
    DrainStepsKeep(p);
    if p.pos < |p.wal| then Drain(OnRelay(p))
    else if p.offset < |p.topic| then Drain(OnProject(p))
    else p
  }

  lemma {:induction false} DrainEnds(p: Pipe)
    requires Sound(p)
    ensures Sound(Drain(p)) && Quiescent(Drain(p))
    ensures Drain(p).wal == p.wal && Drain(p).rows == p.rows && Drain(p).outbox == p.outbox
    decreases Unread(p), Owed(p)
  {
    hide Sound, OnRelay, OnProject, Unread, Owed;
    PositionsInRange(p);
    Progress(p);
    DrainStepsKeep(p);
    if p.pos < |p.wal| {
      DrainEnds(OnRelay(p));
    } else if p.offset < |p.topic| {
      DrainEnds(OnProject(p));
    }
  }

  // --- What a drained pipeline holds ----------------------------------------------

  // Events that share a key carry the same content.
  ghost predicate Coherent(es: seq<Event>) {
    && (forall e, f | e in es && f in es && KeyOf(e.tx) == KeyOf(f.tx) :: RowOf(e.tx) == RowOf(f.tx))
    && (forall e, f, i: nat, j: nat |
          e in es && f in es && i < |e.results| && j < |f.results| && AKeyOf(e, i) == AKeyOf(f, j) ::
          ARowOf(e, i) == ARowOf(f, j))
  }

  // Exactly one history row for each distinct key among the events, with that key's content.
  ghost predicate HistoryIs(h: Table, es: seq<Event>) {
    && (forall e | e in es :: KeyOf(e.tx) in h && h[KeyOf(e.tx)] == RowOf(e.tx))
    && (forall k | k in h :: exists e :: e in es && KeyOf(e.tx) == k)
  }

  ghost predicate AuditIs(t: map<AKey, ARow>, es: seq<Event>) {
    && (forall e, i: nat | e in es && i < |e.results| :: AKeyOf(e, i) in t && t[AKeyOf(e, i)] == ARowOf(e, i))
    && (forall k | k in t :: exists e, i: nat :: e in es && i < |e.results| && AKeyOf(e, i) == k)
  }

  ghost predicate SameEvents(es: seq<Event>, fs: seq<Event>) { forall e :: e in es <==> e in fs }

  lemma HistoryDetermined(h: Table, es: seq<Event>, g: Table, fs: seq<Event>)
    requires HistoryIs(h, es) && HistoryIs(g, fs) && SameEvents(es, fs)
    ensures h == g
  {
    assert forall k | k in h :: k in g && g[k] == h[k];
    assert forall k | k in g :: k in h;
  }

  lemma AuditDetermined(h: map<AKey, ARow>, es: seq<Event>, g: map<AKey, ARow>, fs: seq<Event>)
    requires AuditIs(h, es) && AuditIs(g, fs) && SameEvents(es, fs)
    ensures h == g
  {
    forall k | k in h ensures k in g && g[k] == h[k] {
      var e, i: nat :| e in es && i < |e.results| && AKeyOf(e, i) == k;
    }
    forall k | k in g ensures k in h {
      var e, i: nat :| e in fs && i < |e.results| && AKeyOf(e, i) == k;
    }
  }

  // At any moment the tables hold only what the events say, and never disagree with one of them.
  lemma TablesFaithful(p: Pipe, e: Event)
    requires Sound(p) && Coherent(Events(p.wal)) && e in Events(p.wal)
    ensures KeyOf(e.tx) in p.history ==> p.history[KeyOf(e.tx)] == RowOf(e.tx)
    ensures forall i: nat | i < |e.results| && AKeyOf(e, i) in p.audit :: p.audit[AKeyOf(e, i)] == ARowOf(e, i)
  {
    if KeyOf(e.tx) in p.history {
      assert RowSourced(p.topic, KeyOf(e.tx), p.history[KeyOf(e.tx)]);
    }
    forall i: nat | i < |e.results| && AKeyOf(e, i) in p.audit ensures p.audit[AKeyOf(e, i)] == ARowOf(e, i) {
      assert AuditSourced(p.topic, AKeyOf(e, i), p.audit[AKeyOf(e, i)]);
    }
  }

  lemma QuiescentProjects(p: Pipe, e: Event)
    requires Sound(p) && Quiescent(p) && e in Events(p.wal)
    ensures Projected(p, e)
  {
    NothingIsLost(p, e);
  }

  // What the drained tables record of each committed event.
  lemma RowsAre(h: Table, t: map<AKey, ARow>, es: seq<Event>, e: Event)
    requires HistoryIs(h, es) && AuditIs(t, es) && e in es
    ensures Holds(h, e.tx) && forall r | r in e.results :: Records(t, e, r)
  {
    forall r | r in e.results ensures Records(t, e, r) {
      var i: nat :| i < |e.results| && e.results[i] == r;
      assert AKeyOf(e, i) in t && t[AKeyOf(e, i)] == ARowOf(e, i);
    }
  }

  lemma TablesComplete(p: Pipe)
    requires Sound(p) && Quiescent(p) && Coherent(Events(p.wal))
    ensures HistoryIs(p.history, Events(p.wal)) && AuditIs(p.audit, Events(p.wal))
  {
    forall e | e in Events(p.wal)
      ensures KeyOf(e.tx) in p.history && p.history[KeyOf(e.tx)] == RowOf(e.tx)
      ensures forall i: nat | i < |e.results| :: AKeyOf(e, i) in p.audit && p.audit[AKeyOf(e, i)] == ARowOf(e, i)
    {
      QuiescentProjects(p, e);
      TablesFaithful(p, e);
    }
    forall k | k in p.history ensures exists e :: e in Events(p.wal) && KeyOf(e.tx) == k {
      assert RowSourced(p.topic, k, p.history[k]);
    }
    forall k | k in p.audit ensures exists e, i: nat :: e in Events(p.wal) && i < |e.results| && AKeyOf(e, i) == k {
      assert AuditSourced(p.topic, k, p.audit[k]);
    }
  }

  lemma Converged(p: Pipe)
    requires Sound(p) && Quiescent(p) && Coherent(Events(p.wal))
    ensures HistoryIs(p.history, Events(p.wal)) && AuditIs(p.audit, Events(p.wal))
    ensures forall e | e in Events(p.wal) ::
              Holds(p.history, e.tx) && forall r | r in e.results :: Records(p.audit, e, r)
  {
    hide *;
    TablesComplete(p);
    forall e | e in Events(p.wal)
      ensures Holds(p.history, e.tx) && forall r | r in e.results :: Records(p.audit, e, r)
    {
      RowsAre(p.history, p.audit, Events(p.wal), e);
    }
  }

  // --- Confluence --------------------------------------------------------------------

  // The events a run commits, in order.
  function Commits(actions: seq<PipeAction>): seq<Event> {
    if actions == [] then []
    else
      var last := actions[|actions| - 1];
      Commits(actions[..|actions| - 1]) + if last.Save? then [last.event] else []
  }

  lemma {:induction false} CommitsAreEvents(actions: seq<PipeAction>)
    ensures Events(PRun(actions).wal) == Commits(actions)
  {
    if actions != [] {
      var rest, last := actions[..|actions| - 1], actions[|actions| - 1];
      CommitsAreEvents(rest);
      match last
      case Save(e, at) => EventsOfSave(PRun(rest), e, at);
      case Cleanup(lag, now) => EventsOfCleanup(PRun(rest), lag, now);
      case _ =>
    }
  }

  lemma DrainedTables(actions: seq<PipeAction>)
    requires Coherent(Commits(actions))
    ensures Sound(PRun(actions))
    ensures HistoryIs(Drain(PRun(actions)).history, Commits(actions))
    ensures AuditIs(Drain(PRun(actions)).audit, Commits(actions))
  {
    RunsAreSound(actions);
    CommitsAreEvents(actions);
    DrainEnds(PRun(actions));
    Converged(Drain(PRun(actions)));
  }

  // Two runs that commit the same events, in any order and any number of times, drain to the same
  // tables, whatever relays, fall-backs, crashes between writes and cleanups either run contains.
  lemma Confluent(actions: seq<PipeAction>, others: seq<PipeAction>)
    requires Coherent(Commits(actions)) && SameEvents(Commits(actions), Commits(others))
    ensures Sound(PRun(actions)) && Sound(PRun(others))
    ensures Drain(PRun(actions)).history == Drain(PRun(others)).history
    ensures Drain(PRun(actions)).audit == Drain(PRun(others)).audit
  {
    DrainedTables(actions);
    DrainedTables(others);
    HistoryDetermined(Drain(PRun(actions)).history, Commits(actions), Drain(PRun(others)).history, Commits(others));
    AuditDetermined(Drain(PRun(actions)).audit, Commits(actions), Drain(PRun(others)).audit, Commits(others));
  }

  function WithoutCleanups(actions: seq<PipeAction>): seq<PipeAction> {
    if actions == [] then []
    else
      var last := actions[|actions| - 1];
      WithoutCleanups(actions[..|actions| - 1]) + if last.Cleanup? then [] else [last]
  }

  lemma {:induction false} CleanupsCommitNothing(actions: seq<PipeAction>)
    ensures Commits(WithoutCleanups(actions)) == Commits(actions)
  {
    if actions != [] {
      var rest, last := actions[..|actions| - 1], actions[|actions| - 1];
      CleanupsCommitNothing(rest);
      if last.Cleanup? {
        assert WithoutCleanups(rest) + [] == WithoutCleanups(rest);
      } else {
        assert (WithoutCleanups(rest) + [last])[..|WithoutCleanups(rest)|] == WithoutCleanups(rest);
      }
    }
  }

  lemma CleanupInvisible(actions: seq<PipeAction>)
    requires Coherent(Commits(actions))
    ensures Sound(PRun(actions)) && Sound(PRun(WithoutCleanups(actions)))
    ensures Drain(PRun(actions)).history == Drain(PRun(WithoutCleanups(actions))).history
    ensures Drain(PRun(actions)).audit == Drain(PRun(WithoutCleanups(actions))).audit
  {
    CleanupsCommitNothing(actions);
    Confluent(actions, WithoutCleanups(actions));
  }

  // --- Counting --------------------------------------------------------------------

  // A list with each committed transaction of the account once.
  ghost predicate EachOnce(once: seq<Tx>, a: AccountId, es: seq<Event>) {
    && DistinctKeys(once)
    && (forall u | u in once :: u.from == a && exists e :: e in es && e.tx == u)
    && (forall e | e in es && e.tx.from == a :: exists u :: u in once && KeyOf(u) == KeyOf(e.tx))
  }

  lemma OnceSelected(h: Table, es: seq<Event>, a: AccountId, once: seq<Tx>, u: Tx, lo: int, hi: int)
    requires HistoryIs(h, es) && EachOnce(once, a, es) && u in once && lo <= u.createdAt <= hi
    ensures var m := Selected(h, a, lo, hi); KeyOf(u) in m && m[KeyOf(u)] == u.amount
  {
    var e :| e in es && e.tx == u;
  }

  lemma SelectedOnce(h: Table, es: seq<Event>, a: AccountId, once: seq<Tx>, k: HKey, lo: int, hi: int)
    requires HistoryIs(h, es) && EachOnce(once, a, es) && k in Selected(h, a, lo, hi)
    ensures exists u :: u in once && KeyOf(u) == k && u.amount == Selected(h, a, lo, hi)[k]
  {
    var e :| e in es && KeyOf(e.tx) == k;
    var u :| u in once && KeyOf(u) == KeyOf(e.tx);
    OnceSelected(h, es, a, once, u, lo, hi);
  }

  // However often an event was delivered, the window sum counts its transaction once.
  lemma SumCountsOnce(h: Table, es: seq<Event>, a: AccountId, once: seq<Tx>, lo: int, hi: int)
    requires HistoryIs(h, es) && EachOnce(once, a, es)
    ensures SumAmount(h, a, lo, hi) == Within(once, lo, hi)
  {
    var m := Selected(h, a, lo, hi);
    forall u | u in once && lo <= u.createdAt <= hi ensures KeyOf(u) in m && m[KeyOf(u)] == u.amount {
      OnceSelected(h, es, a, once, u, lo, hi);
    }
    ListAtMostTable(once, m, lo, hi);
    assert BackedBy(m, once) by {
      forall k | k in m ensures exists u :: u in once && KeyOf(u) == k && u.amount == m[k] {
        SelectedOnce(h, es, a, once, k, lo, hi);
      }
    }
    TableAtMostList(m, once, lo, hi);
  }

  // --- Rows and events commit together ------------------------------------------------

  function RowsOf(es: seq<Event>): map<nat, TxRow> {
    if es == [] then map[]
    else
      var rest, e := RowsOf(es[..|es| - 1]), es[|es| - 1];
      rest[e.tx.id := RowFor(rest, e)]
  }

  lemma {:induction false} RowsOfKeys(es: seq<Event>, id: nat)
    ensures id in RowsOf(es) <==> exists e :: e in es && e.tx.id == id
  {
    if es != [] {
      RowsOfKeys(es[..|es| - 1], id);
      assert es == es[..|es| - 1] + [es[|es| - 1]];
    }
  }

  // A row holds the instant of the first event with its id, and all else of the last one.
  lemma {:induction false} RowHolds(es: seq<Event>, first: nat, last: nat)
    requires first <= last < |es| && es[first].tx.id == es[last].tx.id
    requires forall i | 0 <= i < first || last < i < |es| :: es[i].tx.id != es[last].tx.id
    ensures es[last].tx.id in RowsOf(es)
    ensures RowsOf(es)[es[last].tx.id] ==
            TxRow(es[last].tx.(createdAt := es[first].tx.createdAt), es[last].status,
                  LevelOf(es[last].results), ScoreOf(es[last].results))
  {
    var n, id := |es| - 1, es[last].tx.id;
    var rest := es[..n];
    if last < n {
      RowHolds(rest, first, last);
    } else if first < n {
      RowInstant(rest, first);
    } else {
      RowsOfKeys(rest, id);
    }
  }

  lemma {:induction false} RowInstant(es: seq<Event>, first: nat)
    requires first < |es| && forall i | 0 <= i < first :: es[i].tx.id != es[first].tx.id
    ensures es[first].tx.id in RowsOf(es)
    ensures RowsOf(es)[es[first].tx.id].tx.createdAt == es[first].tx.createdAt
  {
    var n := |es| - 1;
    if first < n {
      RowInstant(es[..n], first);
    } else {
      RowsOfKeys(es[..n], es[first].tx.id);
    }
  }

  lemma RowsByStep(p: Pipe, action: PipeAction)
    requires p.rows == RowsOf(Events(p.wal))
    ensures PStep(p, action).rows == RowsOf(Events(PStep(p, action).wal))
  {
    hide OnProject, Events, DeleteRecords, KeyOf, RowOf;
    match action
    case Save(e, at) =>
      EventsOfSave(p, e, at);
      assert (Events(p.wal) + [e])[..|Events(p.wal)|] == Events(p.wal);
    case Cleanup(lag, now) => EventsOfCleanup(p, lag, now);
    case Project => ProjectKeepsLog(p);
    case _ =>
  }

  lemma ProjectKeepsLog(p: Pipe)
    ensures OnProject(p).rows == p.rows && OnProject(p).wal == p.wal
  {
  }
}
