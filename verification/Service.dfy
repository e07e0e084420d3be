/** One evaluation as the service runs it: lock, context, rules, save, cache, unlock. */
module Service {
  import opened Domain
  import opened Verdict
  import opened Rules
  import opened History
  import opened Context
  import opened Members
  import opened VolumeCache
  import opened Pipeline
  import opened Stores

  // What the evaluation meets outside its own code: the clock before and after the save, the table's answers,
  // fresh names, faults.
  datatype Surroundings = Surroundings(
    now: int, volumeVal: Option<nat>, txCount30d: nat, stats: seq<Stat>,
    contextFails: bool, eventId: nat, evaluatedAt: nat, saveFault: SaveFault,
    name: string, cachedAt: int, cacheFault: Fault)

  datatype Outcome = LockTimeout | Failed | Evaluated(event: Event, cached: bool)

  class TransactionEvaluationService {
    const cache: AccountVolumeCache
    const db: Database
    var locks: set<AccountId>

    constructor (cache: AccountVolumeCache, db: Database)
      ensures this.cache == cache && this.db == db && locks == {}
    {
      this.cache, this.db, locks := cache, db, {};
    }

    // The lock is released on every path. The evaluation fails exactly if a cached amount is unreadable, the
    // context cannot be built, or the save fails. Nothing is cached unless the save committed, a failed save
    // leaves no trace in the database, and a failed cache write does not undo the save.
    method Evaluate(tx: Tx, env: Surroundings) returns (r: Outcome)
      requires cache.Valid()
      modifies this, cache, db
      ensures cache.Valid() && locks == old(locks)
      ensures forall b | b != tx.from :: cache.SetOf(b) == old(cache.SetOf(b))
      ensures r.LockTimeout? <==> tx.from in old(locks)
      ensures r.Failed? <==>
        && tx.from !in old(locks)
        && (UnreadableAt(old(cache.State()), tx) || env.contextFails || !env.saveFault.NoSaveFault?)
      ensures cache.State() == StateLeft(old(cache.State()), tx, env, r)
      ensures r.LockTimeout? ==> cache.volumes == old(cache.volumes)
      ensures r.Failed? ==> cache.SetOf(tx.from) == Left(old(cache.SetOf(tx.from)), tx.createdAt, env.volumeVal)
      ensures !r.Evaluated? ==> db.rows == old(db.rows) && db.outbox == old(db.outbox) && db.wal == old(db.wal)
      ensures !r.Evaluated? ==> cache.senders == old(cache.senders)
      ensures r.Evaluated? ==>
        && db.rows == old(db.rows)[tx.id := RowFor(old(db.rows), r.event)]
        && db.outbox == old(db.outbox)[env.eventId := OutboxRow(r.event, env.now)]
        && Events(db.wal) == Events(old(db.wal)) + [r.event]
        && Decided(r.event, tx, env, old(cache.SetOf(tx.from)), old(Held(cache.senders, tx.to)))
        && (r.cached <==> env.cacheFault.NoFault?)
        && cache.SetOf(tx.from) == AddedTo(Left(old(cache.SetOf(tx.from)), tx.createdAt, env.volumeVal), tx, env)
        && cache.senders == SendersAfter(old(cache.senders), tx, env.cacheFault)
    {
      var acquired := false;
      if tx.from in locks {
        return LockTimeout;
      }
      locks, acquired := locks + {tx.from}, true;
      r := EvaluateLocked(tx, env);
      if acquired {
        locks := locks - {tx.from};
      }
    }

    method BuildContext(tx: Tx, env: Surroundings) returns (ctx: Option<AccountContext>)
      requires cache.Valid()
      modifies cache
      ensures cache.Valid() && cache.senders == old(cache.senders)
      ensures cache.State() ==
              KeysRead(old(cache.State()), tx.from, tx.createdAt, env.volumeVal, env.txCount30d, env.now)
      ensures ctx.None? <==> UnreadableAt(old(cache.State()), tx) || env.contextFails
      ensures cache.SetOf(tx.from) == Left(old(cache.SetOf(tx.from)), tx.createdAt, env.volumeVal)
      ensures forall b | b != tx.from :: cache.SetOf(b) == old(cache.SetOf(b))
      ensures ctx.Some? ==>
        ContextSeen(ctx.value, tx, env, old(cache.SetOf(tx.from)), old(Held(cache.senders, tx.to)))
    {
      hide Yields, Left, KeysRead;
      ghost var z := cache.SetOf(tx.from);
      var metrics := cache.Get24hMetrics(tx.from, tx.createdAt, env.volumeVal, env.txCount30d, env.now);
      if metrics.None? || env.contextFails {
        return None;
      }
      var volume, count := metrics.value.volume24h, metrics.value.txCount24h;
      var senders := cache.GetUniqueCounterparties24h(tx.to);
      var built := BuildAccountContext(volume, count, senders, env.stats);
      assert Yields(z, tx.createdAt, env.volumeVal, volume, count);
      ctx := Some(built);
    }

    method EvaluateLocked(tx: Tx, env: Surroundings) returns (r: Outcome)
      requires cache.Valid()
      modifies cache, db
      ensures cache.Valid() && !r.LockTimeout?
      ensures r.Failed? <==>
        UnreadableAt(old(cache.State()), tx) || env.contextFails || !env.saveFault.NoSaveFault?
      ensures cache.State() == StateLeft(old(cache.State()), tx, env, r)
      ensures forall b | b != tx.from :: cache.SetOf(b) == old(cache.SetOf(b))
      ensures r.Failed? ==> cache.SetOf(tx.from) == Left(old(cache.SetOf(tx.from)), tx.createdAt, env.volumeVal)
      ensures !r.Evaluated? ==> db.rows == old(db.rows) && db.outbox == old(db.outbox) && db.wal == old(db.wal)
      ensures !r.Evaluated? ==> cache.senders == old(cache.senders)
      ensures r.Evaluated? ==>
        && db.rows == old(db.rows)[tx.id := RowFor(old(db.rows), r.event)]
        && db.outbox == old(db.outbox)[env.eventId := OutboxRow(r.event, env.now)]
        && Events(db.wal) == Events(old(db.wal)) + [r.event]
        && Decided(r.event, tx, env, old(cache.SetOf(tx.from)), old(Held(cache.senders, tx.to)))
        && (r.cached <==> env.cacheFault.NoFault?)
        && cache.SetOf(tx.from) == AddedTo(Left(old(cache.SetOf(tx.from)), tx.createdAt, env.volumeVal), tx, env)
        && cache.senders == SendersAfter(old(cache.senders), tx, env.cacheFault)
    {
      hide StatusOf, RunEngine, Yields, Events, Left, KeysRead, KeysAdded, UnreadableAt, ContextSeen, Sane, RowFor;
      var ctx := BuildContext(tx, env);
      if ctx.None? {
        return Failed;
      }
      var results := RunEngine(CONFIGURED, tx, ctx.value);
      var status := StatusOf(results);
      ConfiguredDecision(CONFIGURED, tx, ctx.value);
      var event := Event(tx, status, results, env.evaluatedAt);
      var saved := db.Save(event, env.eventId, env.now, env.saveFault);
      if !saved {
        return Failed;
      }
      EventsOfRecords(old(db.wal), RowFor(old(db.rows), event), env.eventId, event);
      var cached := false;
      if status != REJECTED {
        cached := cache.AddTransaction(tx.from, tx.to, tx.amount, tx.createdAt, env.name, env.cachedAt, env.cacheFault);
      }
      r := Evaluated(event, cached);
    }
  }

  // A cached amount in the window is unreadable.
  ghost predicate UnreadableAt(k: Keys, tx: Tx) {
    tx.from in k.volumes && !Readable(RemoveRange(k.volumes[tx.from], tx.createdAt - DAY))
  }

  // The cache after the call: untouched by a timeout; otherwise as the read leaves it, and after an evaluation
  // with what the add wrote.
  ghost function StateLeft(k: Keys, tx: Tx, env: Surroundings, r: Outcome): Keys {
    var read := KeysRead(k, tx.from, tx.createdAt, env.volumeVal, env.txCount30d, env.now);
    match r
    case LockTimeout => k
    case Failed => read
    case Evaluated(_, _) =>
      KeysAdded(read, tx.from, tx.to, Member(env.name, tx.amount), tx.createdAt, env.cachedAt, env.cacheFault)
  }

  function Held(senders: map<AccountId, set<AccountId>>, to: AccountId): set<AccountId> {
    if to in senders then senders[to] else {}
  }

  // The sorted set after the cache write: the new member, unless the write failed before it.
  function AddedTo(z: ZSet, tx: Tx, env: Surroundings): ZSet {
    if env.cacheFault.AtVolume? then z else z[Member(env.name, tx.amount) := tx.createdAt]
  }

  function SendersAfter(senders: map<AccountId, set<AccountId>>, tx: Tx, fault: Fault): map<AccountId, set<AccountId>> {
    if fault.AtVolume? || fault.AtSenders? then senders
    else senders[tx.to := Held(senders, tx.to) + {tx.from}]
  }

  ghost predicate ContextSeen(ctx: AccountContext, tx: Tx, env: Surroundings, z: ZSet, senders: set<AccountId>) {
    exists volume, count ::
      && Yields(z, tx.createdAt, env.volumeVal, volume, count)
      && ctx == ContextOf(volume, count, |senders|, GroupCount(env.stats), GroupTotal(env.stats), GroupP2p(env.stats))
  }

  // The event records the configured rules' verdict on the context read before the save.
  ghost predicate Decided(e: Event, tx: Tx, env: Surroundings, z: ZSet, senders: set<AccountId>) {
    && e.tx == tx && e.evaluatedAt == env.evaluatedAt
    && e.status == StatusOf(e.results) && e.status != REJECTED
    && exists ctx :: ContextSeen(ctx, tx, env, z, senders) && e.results == RunEngine(CONFIGURED, tx, ctx)
  }

  // The per-rule scores of the audit rows agree with the level of the verdict they explain: some row
  // scores 100 exactly at level HIGH, every row scores 0 exactly at level LOW.
  lemma AuditExplainsLevel(e: Event, tx: Tx, ctx: AccountContext)
    requires e.results == RunEngine(CONFIGURED, tx, ctx)
    ensures LevelOf(e.results) == HIGH <==> exists i :: 0 <= i < |e.results| && ARowOf(e, i).riskScore == 100
    ensures LevelOf(e.results) == LOW <==> forall i | 0 <= i < |e.results| :: ARowOf(e, i).riskScore == 0
  {
    ResultsAre(tx, ctx);
    ConfiguredFlags(tx, ctx);
    var hard, soft := Triggers(CounterpartyCount, tx, ctx), Triggers(DormantAccountSpike, tx, ctx);
    assert e.results == Results(tx, ctx) && |e.results| == 4;
    if HasHardBlock(e.results) {
      assert ARowOf(e, if hard then 0 else 1).riskScore == 100;
    } else {
      assert ARowOf(e, if soft then 2 else 3).riskScore == 0 <==> FlaggedCount(e.results) == 0;
    }
  }

  lemma EventsOfRecords(wal: seq<WalRecord>, row: TxRow, id: nat, e: Event)
    ensures Events(wal + [RowUpsert(row), OutboxInsert(id, e)]) == Events(wal) + [e]
  {
    var w := [RowUpsert(row), OutboxInsert(id, e)];
    EventsConcat(wal, w);
    assert w[..1] == [w[0]] && w[..1][..0] == [];
    assert Events(w[..1]) == Events([]) + [];
    assert Events(w) == Events(w[..1]) + [e];
  }
}
