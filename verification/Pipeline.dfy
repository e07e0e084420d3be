/** Outbox to history: the transaction and outbox tables, the write-ahead log, the relay that reads
    the log into a topic, the consumer that projects the topic into the history and audit tables, and
    the cleaner. Delivery is at least once: the relay and the consumer may fall back at any time. */
module Pipeline {
  import opened Domain
  import opened History
  import opened Verdict

  datatype TxRow = TxRow(tx: Tx, status: TransactionStatus, level: RiskLevel, score: nat)
  datatype OutboxRow = OutboxRow(event: Event, createdAt: int)
  datatype WalRecord =
    | RowUpsert(row: TxRow)
    | OutboxInsert(eventId: nat, event: Event)
    | OutboxDelete(deleted: nat)

  datatype AKey = AKey(id: nat, createdAt: nat, ruleId: string)
  datatype ARow = ARow(ruleVersion: nat, status: RuleStatus, isHard: bool, riskScore: nat)

  // `stage` counts the writes already done for the event at `offset`: first the history row, then
  // one audit row for each rule result.
  datatype Pipe = Pipe(
    rows: map<nat, TxRow>, outbox: map<nat, OutboxRow>, wal: seq<WalRecord>,
    pos: nat, topic: seq<Event>, offset: nat, stage: nat,
    history: Table, audit: map<AKey, ARow>)

  const START: Pipe := Pipe(map[], map[], [], 0, [], 0, 0, map[], map[])

  const MAX_LAG: nat := 10_485_760

  function RuleScore(r: RuleResult): nat {
    if r.status.RulePassed? then 0 else if r.isHard then 100 else 50
  }

  function AKeyOf(e: Event, i: nat): AKey
    requires i < |e.results|
  {
    AKey(e.tx.id, e.evaluatedAt, e.results[i].ruleId)
  }

  function ARowOf(e: Event, i: nat): ARow
    requires i < |e.results|
  {
    var r := e.results[i];
    ARow(r.ruleVersion, r.status, r.isHard, RuleScore(r))
  }

  // The audit table records the result under the event's id and instant and the rule's code: its version, status
  // and hardness, and a score of 0, 100 or 50.
  predicate Records(t: map<AKey, ARow>, e: Event, r: RuleResult) {
    && AKey(e.tx.id, e.evaluatedAt, r.ruleId) in t
    && t[AKey(e.tx.id, e.evaluatedAt, r.ruleId)] ==
       ARow(r.ruleVersion, r.status, r.isHard, if r.status == RulePassed then 0 else if r.isHard then 100 else 50)
  }

  // The history table holds the transaction under its account, kind, instant and id: its receiver, amount,
  // currency and category.
  predicate Holds(h: Table, u: Tx) {
    && HKey(u.from, u.isP2p, u.createdAt, u.id) in h
    && h[HKey(u.from, u.isP2p, u.createdAt, u.id)] == HRow(u.to, u.amount, u.currency, u.mccCode)
  }

  // --- Steps -----------------------------------------------------------------

  datatype PipeAction =
    | Save(event: Event, at: int)
    | Relay
    | RelayFallsBack(to: nat)
    | Project
    | ConsumerFallsBack(offset: nat)
    | Cleanup(lag: Option<nat>, now: int)

  // What saving the transaction leaves in its row: an instant once stored is not updatable.
  function RowFor(rows: map<nat, TxRow>, e: Event): TxRow {
    var stored := if e.tx.id in rows then e.tx.(createdAt := rows[e.tx.id].tx.createdAt) else e.tx;
    TxRow(stored, e.status, LevelOf(e.results), ScoreOf(e.results))
  }

  // One database transaction: the row, the outbox row, and their log records.
  function OnSave(p: Pipe, e: Event, at: int): Pipe {
    var row, id := RowFor(p.rows, e), |p.wal|;
    p.(rows := p.rows[e.tx.id := row],
       outbox := p.outbox[id := OutboxRow(e, at)],
       wal := p.wal + [RowUpsert(row), OutboxInsert(id, e)])
  }

  // Only outbox inserts become topic records.
  function OnRelay(p: Pipe): Pipe {
    if p.pos >= |p.wal| then p
    else
      var record := p.wal[p.pos];
      p.(pos := p.pos + 1, topic := if record.OutboxInsert? then p.topic + [record.event] else p.topic)
  }

  // The next write for the event at the offset; after the last one the offset moves on.
  function OnProject(p: Pipe): Pipe {
    if p.offset >= |p.topic| then p
    else
      var e := p.topic[p.offset];
      if p.stage == 0 then p.(history := p.history[KeyOf(e.tx) := RowOf(e.tx)], stage := 1)
      else if p.stage - 1 < |e.results| then
        p.(audit := p.audit[AKeyOf(e, p.stage - 1) := ARowOf(e, p.stage - 1)], stage := p.stage + 1)
      else p.(offset := p.offset + 1, stage := 0)
  }

  predicate CleanupAllowed(lag: Option<nat>) { lag.Some? && lag.value < MAX_LAG }

  function Expired(outbox: map<nat, OutboxRow>, now: int): set<nat> {
    set id | id in outbox && outbox[id].createdAt < now - HOUR
  }

  // The deletions reach the log too, in no particular order.
  ghost function DeleteRecords(ids: set<nat>): seq<WalRecord> {
    if ids == {} then [] else var id :| id in ids; [OutboxDelete(id)] + DeleteRecords(ids - {id})
  }

  ghost function OnCleanup(p: Pipe, lag: Option<nat>, now: int): Pipe {
    if !CleanupAllowed(lag) then p
    else
      var ids := Expired(p.outbox, now);
      p.(outbox := p.outbox - ids, wal := p.wal + DeleteRecords(ids))
  }

  ghost function PStep(p: Pipe, action: PipeAction): Pipe {
    match action
    case Save(e, at) => OnSave(p, e, at)
    case Relay => OnRelay(p)
    case RelayFallsBack(to) => if to <= p.pos then p.(pos := to) else p
    case Project => OnProject(p)
    case ConsumerFallsBack(to) => if to <= p.offset then p.(offset := to, stage := 0) else p
    case Cleanup(lag, now) => OnCleanup(p, lag, now)
  }

  ghost function PRun(actions: seq<PipeAction>): Pipe {
    if actions == [] then START else PStep(PRun(actions[..|actions| - 1]), actions[|actions| - 1])
  }

  // --- Committed events --------------------------------------------------------

  function Events(wal: seq<WalRecord>): seq<Event> {
    if wal == [] then []
    else
      var last := wal[|wal| - 1];
      Events(wal[..|wal| - 1]) + if last.OutboxInsert? then [last.event] else []
  }

  lemma {:induction false} EventsConcat(v: seq<WalRecord>, w: seq<WalRecord>)
    ensures Events(v + w) == Events(v) + Events(w)
  {
    if w == [] {
      assert v + w == v;
    } else {
      assert (v + w)[..|v + w| - 1] == v + w[..|w| - 1];
      EventsConcat(v, w[..|w| - 1]);
    }
  }

  lemma {:induction false} EventsHold(wal: seq<WalRecord>, i: nat)
    requires i < |wal| && wal[i].OutboxInsert?
    ensures wal[i].event in Events(wal)
  {
    if i < |wal| - 1 {
      EventsHold(wal[..|wal| - 1], i);
    }
  }

  lemma {:induction false} EventsSource(wal: seq<WalRecord>, e: Event) returns (i: nat)
    requires e in Events(wal)
    ensures i < |wal| && wal[i].OutboxInsert? && wal[i].event == e
  {
    var n := |wal| - 1;
    if wal[n].OutboxInsert? && wal[n].event == e {
      i := n;
    } else {
      i := EventsSource(wal[..n], e);
    }
  }

  lemma {:induction false} DeletesCarryNoEvent(ids: set<nat>)
    ensures Events(DeleteRecords(ids)) == []
    ensures forall r | r in DeleteRecords(ids) :: r.OutboxDelete?
  {
    if ids != {} {
      var id :| id in ids && DeleteRecords(ids) == [OutboxDelete(id)] + DeleteRecords(ids - {id});
      DeletesCarryNoEvent(ids - {id});
      EventsConcat([OutboxDelete(id)], DeleteRecords(ids - {id}));
      assert Events([OutboxDelete(id)]) == Events([]) + [];
    }
  }

  lemma EventsOfSave(p: Pipe, e: Event, at: int)
    ensures Events(OnSave(p, e, at).wal) == Events(p.wal) + [e]
  {
    var w := [RowUpsert(RowFor(p.rows, e)), OutboxInsert(|p.wal|, e)];
    EventsConcat(p.wal, w);
    assert w[..1] == [w[0]] && w[..1][..0] == [];
    assert Events(w[..1]) == Events([]) + [];
    assert Events(w) == Events(w[..1]) + [e];
  }

  lemma EventsOfCleanup(p: Pipe, lag: Option<nat>, now: int)
    ensures Events(OnCleanup(p, lag, now).wal) == Events(p.wal)
  {
    if CleanupAllowed(lag) {
      DeletesCarryNoEvent(Expired(p.outbox, now));
      EventsConcat(p.wal, DeleteRecords(Expired(p.outbox, now)));
    }
  }

  lemma {:induction false} DeletesAre(ids: set<nat>)
    ensures |DeleteRecords(ids)| == |ids|
    ensures forall id :: OutboxDelete(id) in DeleteRecords(ids) <==> id in ids
  {
    if ids != {} {
      var id :| id in ids && DeleteRecords(ids) == [OutboxDelete(id)] + DeleteRecords(ids - {id});
      DeletesAre(ids - {id});
    }
  }

  // --- Cleaning up ------------------------------------------------------------------

  // What deleting the expired rows leaves of the outbox and adds to the log.
  lemma ExpiredFacts(outbox: map<nat, OutboxRow>, wal: seq<WalRecord>, now: int)
    ensures var ids := Expired(outbox, now); var left, log := outbox - ids, wal + DeleteRecords(ids);
      && (forall id :: id in left <==> id in outbox && now - 3_600_000 <= outbox[id].createdAt)
      && (forall id | id in left :: left[id] == outbox[id]) && |ids| == |outbox.Keys - left.Keys|
      && wal <= log && |log| == |wal| + |ids| && Events(log) == Events(wal)
      && (forall id :: OutboxDelete(id) in log[|wal|..] <==> id in outbox && id !in left)
  {
    hide Events, DeleteRecords;
    var ids := Expired(outbox, now);
    DeletesAre(ids);
    DeletesCarryNoEvent(ids);
    EventsConcat(wal, DeleteRecords(ids));
    assert outbox.Keys - (outbox - ids).Keys == ids;
    assert (wal + DeleteRecords(ids))[|wal|..] == DeleteRecords(ids);
  }

  // The cleaner does nothing when the slot is missing or 10 MB or more behind.
  lemma CleanupSkips(p: Pipe, lag: Option<nat>, now: int)
    requires lag == None || lag.value >= 10_485_760
    ensures PStep(p, Cleanup(lag, now)) == p
  {
  }

  // Otherwise exactly the outbox rows created within the last hour stay, each deletion is logged once, and
  // nothing else changes.
  lemma CleanupIs(p: Pipe, lag: Option<nat>, now: int)
    requires lag != None && lag.value < 10_485_760
    ensures var q := PStep(p, Cleanup(lag, now));
      && q == p.(outbox := q.outbox, wal := q.wal)
      && (forall id :: id in q.outbox <==> id in p.outbox && now - 3_600_000 <= p.outbox[id].createdAt)
      && (forall id | id in q.outbox :: q.outbox[id] == p.outbox[id])
      && p.wal <= q.wal && |q.wal| == |p.wal| + |p.outbox.Keys - q.outbox.Keys|
      && (forall id :: OutboxDelete(id) in q.wal[|p.wal|..] <==> id in p.outbox && id !in q.outbox)
  {
    CleanupShape(p, lag, now);
    hide PStep, Expired, DeleteRecords, Events;
    ExpiredFacts(p.outbox, p.wal, now);
  }

  lemma CleanupShape(p: Pipe, lag: Option<nat>, now: int)
    requires lag != None && lag.value < 10_485_760
    ensures var ids := Expired(p.outbox, now);
      PStep(p, Cleanup(lag, now)) == p.(outbox := p.outbox - ids, wal := p.wal + DeleteRecords(ids))
  {
    hide Expired, DeleteRecords;
  }

  // Outbox identifiers are places in the log, so no later save takes an earlier one's.
  lemma OutboxByStep(p: Pipe, action: PipeAction, id: nat)
    requires id in p.outbox && id < |p.wal|
    requires action.Cleanup? && action.lag != None && action.lag.value < 10_485_760 ==>
               action.now - 3_600_000 <= p.outbox[id].createdAt
    ensures var q := PStep(p, action); id in q.outbox && q.outbox[id] == p.outbox[id] && |p.wal| <= |q.wal|
  {
    hide Events, KeyOf, RowOf, ARowOf;
    if action.Cleanup? {
      if action.lag != None && action.lag.value < 10_485_760 {
        CleanupIs(p, action.lag, action.now);
      } else {
        CleanupSkips(p, action.lag, action.now);
      }
      hide PStep;
    }
  }

  // A saved event's outbox row stays until a cleanup that finds the slot caught up more than an hour later.
  lemma {:induction false} OutboxRowStays(before: seq<PipeAction>, e: Event, at: int, more: seq<PipeAction>)
    requires forall x | x in more && x.Cleanup? && x.lag != None && x.lag.value < 10_485_760 ::
               x.now - 3_600_000 <= at
    ensures var id := |PRun(before).wal|; var p := PRun(before + [Save(e, at)] + more);
      id in p.outbox && p.outbox[id] == OutboxRow(e, at) && id < |p.wal|
  {
    hide PStep, Events;
    var saved := before + [Save(e, at)];
    if more == [] {
      assert saved[..|saved| - 1] == before && saved + more == saved;
      SavedRow(PRun(before), e, at);
    } else {
      var n := |more| - 1;
      assert (saved + more)[..|saved + more| - 1] == saved + more[..n];
      assert more[n] in more && forall x | x in more[..n] :: x in more;
      OutboxRowStays(before, e, at, more[..n]);
      OutboxByStep(PRun(saved + more[..n]), more[n], |PRun(before).wal|);
    }
  }

  lemma SavedRow(p: Pipe, e: Event, at: int)
    ensures var q := PStep(p, Save(e, at));
      |p.wal| in q.outbox && q.outbox[|p.wal|] == OutboxRow(e, at) && |q.wal| == |p.wal| + 2
  {
  }

  // --- Invariant -----------------------------------------------------------------

  ghost predicate RelaySound(p: Pipe) {
    && p.pos <= |p.wal|
    && (forall e | e in p.topic :: e in Events(p.wal))
    && (forall i | 0 <= i < p.pos && p.wal[i].OutboxInsert? :: p.wal[i].event in p.topic)
  }

  // The first `n` writes for `e` are in the tables.
  ghost predicate Written(p: Pipe, e: Event, n: nat) {
    && (n > 0 ==> KeyOf(e.tx) in p.history)
    && (forall i | 0 <= i < |e.results| && i + 1 < n :: AKeyOf(e, i) in p.audit)
  }

  ghost predicate Projected(p: Pipe, e: Event) { Written(p, e, 1 + |e.results|) }

  ghost predicate ConsumerSound(p: Pipe) {
    && p.offset <= |p.topic|
    && (p.stage > 0 ==> p.offset < |p.topic| && p.stage <= 1 + |p.topic[p.offset].results|
                        && Written(p, p.topic[p.offset], p.stage))
    && (forall j | 0 <= j < p.offset :: Projected(p, p.topic[j]))
  }

  ghost predicate RowSourced(topic: seq<Event>, k: HKey, row: HRow) {
    exists e :: e in topic && KeyOf(e.tx) == k && RowOf(e.tx) == row
  }

  ghost predicate AuditSourced(topic: seq<Event>, k: AKey, row: ARow) {
    exists e, i: nat :: e in topic && i < |e.results| && AKeyOf(e, i) == k && ARowOf(e, i) == row
  }

  ghost predicate TablesSound(p: Pipe) {
    && (forall k | k in p.history :: RowSourced(p.topic, k, p.history[k]))
    && (forall k | k in p.audit :: AuditSourced(p.topic, k, p.audit[k]))
  }

  ghost predicate Sound(p: Pipe) { RelaySound(p) && ConsumerSound(p) && TablesSound(p) }

  lemma TablesGrow(p: Pipe, q: Pipe)
    requires ConsumerSound(p)
    requires p.history.Keys <= q.history.Keys && p.audit.Keys <= q.audit.Keys
    ensures forall e, n: nat | Written(p, e, n) :: Written(q, e, n)
  {
  }

  lemma SoundBySave(p: Pipe, e: Event, at: int)
    requires Sound(p)
    ensures Sound(OnSave(p, e, at))
  {
    EventsOfSave(p, e, at);
  }

  lemma TablesByRelay(p: Pipe)
    requires TablesSound(p)
    ensures TablesSound(OnRelay(p))
  {
    var q := OnRelay(p);
    assert forall e | e in p.topic :: e in q.topic;
    forall k | k in p.history ensures RowSourced(q.topic, k, p.history[k]) {
      assert RowSourced(p.topic, k, p.history[k]);
    }
    forall k | k in p.audit ensures AuditSourced(q.topic, k, p.audit[k]) {
      assert AuditSourced(p.topic, k, p.audit[k]);
    }
  }

  lemma SoundByRelay(p: Pipe)
    requires Sound(p)
    ensures Sound(OnRelay(p))
  {
    var q := OnRelay(p);
    if p.pos < |p.wal| {
      if p.wal[p.pos].OutboxInsert? {
        EventsHold(p.wal, p.pos);
      }
      assert forall e | e in p.topic :: e in q.topic;
      assert RelaySound(q);
      TablesGrow(p, q);
      TablesByRelay(p);
    }
  }

  lemma ConsumerByProject(p: Pipe)
    requires ConsumerSound(p)
    ensures ConsumerSound(OnProject(p))
  {
    TablesGrow(p, OnProject(p));
  }

  lemma TablesByProject(p: Pipe)
    requires TablesSound(p)
    ensures TablesSound(OnProject(p))
  {
    if p.offset < |p.topic| {
      var e := p.topic[p.offset];
      assert e in p.topic;
      if p.stage == 0 {
        assert RowSourced(p.topic, KeyOf(e.tx), RowOf(e.tx));
      } else if p.stage - 1 < |e.results| {
        assert AuditSourced(p.topic, AKeyOf(e, p.stage - 1), ARowOf(e, p.stage - 1));
      }
    }
  }

  lemma SoundByCleanup(p: Pipe, lag: Option<nat>, now: int)
    requires Sound(p)
    ensures Sound(OnCleanup(p, lag, now))
  {
    EventsOfCleanup(p, lag, now);
    TablesGrow(p, OnCleanup(p, lag, now));
  }

  lemma SoundByFallBack(p: Pipe, to: nat)
    requires Sound(p)
    ensures Sound(PStep(p, RelayFallsBack(to))) && Sound(PStep(p, ConsumerFallsBack(to)))
  {
    hide RowSourced, AuditSourced, Events;
  }

  lemma SoundByProject(p: Pipe)
    requires Sound(p)
    ensures Sound(OnProject(p))
  {
    hide ConsumerSound, TablesSound, Events;
    ConsumerByProject(p);
    TablesByProject(p);
  }

  lemma SoundByStep(p: Pipe, action: PipeAction)
    requires Sound(p)
    ensures Sound(PStep(p, action))
  {
    hide Sound, OnSave, OnRelay, OnProject, OnCleanup;
    match action
    case Save(e, at) => SoundBySave(p, e, at);
    case Relay => SoundByRelay(p);
    case RelayFallsBack(to) => SoundByFallBack(p, to);
    case Project => SoundByProject(p);
    case ConsumerFallsBack(to) => SoundByFallBack(p, to);
    case Cleanup(lag, now) => SoundByCleanup(p, lag, now);
  }

  lemma {:induction false} RunsAreSound(actions: seq<PipeAction>)
    ensures Sound(PRun(actions))
  {
    if actions != [] {
      RunsAreSound(actions[..|actions| - 1]);
      SoundByStep(PRun(actions[..|actions| - 1]), actions[|actions| - 1]);
    }
  }

  // Unless the relay falls back, the topic is the committed events of the log read so far, once and in order.
  lemma {:induction false} TopicInOrder(actions: seq<PipeAction>)
    requires forall x | x in actions :: !x.RelayFallsBack?
    ensures var p := PRun(actions); p.pos <= |p.wal| && p.topic == Events(p.wal[..p.pos])
  {
    hide PStep, Events;
    if actions == [] {
      NothingRelayed();
    } else {
      var n := |actions| - 1;
      assert actions[n] in actions && forall x | x in actions[..n] :: x in actions;
      TopicInOrder(actions[..n]);
      TopicByStep(PRun(actions[..n]), actions[n]);
    }
  }

  lemma NothingRelayed()
    ensures START.topic == Events(START.wal[..START.pos]) == []
  {
  }

  lemma TopicByStep(p: Pipe, action: PipeAction)
    requires p.pos <= |p.wal| && p.topic == Events(p.wal[..p.pos]) && !action.RelayFallsBack?
    ensures var q := PStep(p, action); q.pos <= |q.wal| && q.topic == Events(q.wal[..q.pos])
  {
    hide DeleteRecords, Expired, KeyOf, RowOf, ARowOf;
    var q := PStep(p, action);
    if action.Relay? && p.pos < |p.wal| {
      assert p.wal[..p.pos + 1][..p.pos] == p.wal[..p.pos];
    } else {
      assert q.wal[..p.pos] == p.wal[..p.pos];
    }
  }

  // Relay and consumer may repeat themselves from any earlier place; the tables keep what they hold.
  lemma FallBackRepeats(p: Pipe, to: nat)
    ensures to <= p.pos ==> PStep(p, RelayFallsBack(to)) == p.(pos := to)
    ensures to <= p.offset ==> PStep(p, ConsumerFallsBack(to)) == p.(offset := to, stage := 0)
  {
  }

  // No committed event is ever out of reach: it is still to be relayed, or waits in the topic, or is
  // already in both tables. The cleaner may have deleted its outbox row long before.
  lemma NothingIsLost(p: Pipe, e: Event)
    requires Sound(p) && e in Events(p.wal)
    ensures || (exists i :: p.pos <= i < |p.wal| && p.wal[i].OutboxInsert? && p.wal[i].event == e)
            || (exists j :: p.offset <= j < |p.topic| && p.topic[j] == e)
            || Projected(p, e)
  {
    var i := EventsSource(p.wal, e);
    if i < p.pos {
      assert p.wal[i].event in p.topic;
      var j :| 0 <= j < |p.topic| && p.topic[j] == e;
    }
  }
}
