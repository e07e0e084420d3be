/** The service's code against the machine: one call of `Evaluate` is one uninterrupted evaluation. */
module Refinement {
  import opened Domain
  import opened Verdict
  import opened Rules
  import opened Sums
  import opened History
  import opened Context
  import opened Window
  import opened Account
  import opened Members
  import opened VolumeCache
  import opened Receivers
  import opened Pipeline
  import opened Stores
  import opened Machine
  import opened Interleaving
  import opened Solo
  import opened Service

  // The random names of each account's entries, in the order they were added.
  type Names = map<AccountId, seq<string>>

  function NamesOf(names: Names, a: AccountId): seq<string> { if a in names then names[a] else [] }

  ghost predicate Stands(z: ZSet, w: Window, names: seq<string>) {
    |names| == |w.live| && GoodNames(names) && z == Encode(w, names)
  }

  // The stores of the service hold what the state says.
  ghost predicate Represents(service: TransactionEvaluationService, s: State, names: Names)
    reads service, service.cache, service.db
  {
    && service.locks == s.locks.Keys
    && service.db.rows == s.pipe.rows && service.db.outbox == s.pipe.outbox
    && Events(service.db.wal) == Events(s.pipe.wal)
    && Mirrors(service.cache.State(), s, names)
  }

  function SetIn(k: Keys, a: AccountId): ZSet { if a in k.volumes then k.volumes[a] else map[] }

  // So do the cache's keys, and each expires when the machine says.
  ghost predicate Mirrors(k: Keys, s: State, names: Names) {
    && Sane(k) && Timed(k, s)
    && (forall r :: Held(k.senders, r) == RecvOf(s, r).senders)
    && (forall a :: Stands(SetIn(k, a), AcctOf(s, a).window, NamesOf(names, a)))
  }

  // Every key expires at the deadline of its account or receiver.
  ghost predicate Timed(k: Keys, s: State) {
    && (forall a | a in k.volumeExpiry :: k.volumeExpiry[a] == AcctOf(s, a).deadline)
    && (forall r | r in k.sendersExpiry :: k.sendersExpiry[r] == RecvOf(s, r).deadline)
  }

  // The surroundings answer as the state's log, table and clock do, which advances with the commit, and the
  // entry's name is fresh.
  ghost predicate Agrees(env: Surroundings, s: State, tx: Tx, names: Names) {
    && env.now == s.now && env.evaluatedAt == s.now && env.eventId == |s.pipe.wal| && env.cachedAt == s.now + 1
    && (if env.volumeVal.Some? then env.volumeVal.value else 0) == Answer(tx, s.pipe.history)
    && env.stats == FetchGroupedStats(s.pipe.history, tx.from, tx.createdAt - THIRTY_DAYS, tx.createdAt)
    && GoodNames(NamesOf(names, tx.from) + [env.name])
  }

  function EndingOf(fault: Fault): Ending {
    match fault
    case NoFault => Cachedly
    case AtActive => Cachedly
    case AtSenders => WithoutSender
    case AtVolume => WithoutVolume
  }

  // The names left by the read.
  function NamesLeft(w: Window, names: seq<string>, t: nat): seq<string>
    requires |names| == |w.live|
  {
    if w.Exists() then KeptNames(w.live, names, t - DAY) else []
  }

  lemma SameAnswer(z: ZSet, t: nat, volumeVal: Option<nat>, answer: nat, v: nat, n: nat)
    requires answer == if volumeVal.Some? then volumeVal.value else 0
    ensures Left(z, t, volumeVal) == Left(z, t, Some(answer))
    ensures Yields(z, t, volumeVal, v, n) <==> Yields(z, t, Some(answer), v, n)
  {
    hide RemoveRange, Readable, SumOf;
  }

  lemma FreshStays(names: seq<string>, left: seq<string>, name: string)
    requires GoodNames(names + [name]) && GoodNames(left) && forall x | x in left :: x in names
    ensures GoodNames(names) && GoodNames(left + [name])
  {
    var all := names + [name];
    assert all[|names|] == name && forall i | 0 <= i < |names| :: all[i] == names[i];
    assert forall i | 0 <= i < |left| :: left[i] in names;
  }

  lemma ReadStands(w: Window, names: seq<string>, t: nat, volumeVal: Option<nat>, answer: nat, name: string)
    requires |names| == |w.live| && GoodNames(names) && GoodNames(names + [name])
    requires answer == if volumeVal.Some? then volumeVal.value else 0
    ensures var z, r := Encode(w, names), Read(w, t, answer); var left := NamesLeft(w, names, t);
      && Yields(z, t, volumeVal, r.volume, r.count)
      && Stands(Left(z, t, volumeVal), r.window, left) && GoodNames(left + [name])
  {
    hide Encode, Left, Yields, Read, GoodNames, KeptNames;
    var z, r := Encode(w, names), Read(w, t, answer);
    ReadRefines(w, names, t, answer);
    SameAnswer(z, t, volumeVal, answer, r.volume, r.count);
    if w.Exists() {
      KeptNamesFacts(w.live, names, t - DAY);
    }
    FreshStays(names, NamesLeft(w, names, t), name);
  }

  lemma YieldsOnce(z: ZSet, t: nat, volumeVal: Option<nat>, v: nat, n: nat, w: nat, m: nat)
    requires Yields(z, t, volumeVal, v, n) && Yields(z, t, volumeVal, w, m)
    ensures v == w && n == m
  {
  }

  // The context the service saw is the one the machine decides on.
  lemma SameContext(
    ctx: AccountContext, tx: Tx, env: Surroundings, s: State, names: Names, z: ZSet, senders: set<AccountId>)
    requires Agrees(env, s, tx, names) && Stands(z, AcctOf(s, tx.from).window, NamesOf(names, tx.from))
    requires senders == RecvOf(s, tx.to).senders && ContextSeen(ctx, tx, env, z, senders)
    ensures ctx == ContextAt(s, tx)
  {
    hide Yields, Stands, Encode, GoodNames, Read, ContextOf, FetchGroupedStats, GroupCount, GroupTotal, GroupP2p;
    var volume, count :| && Yields(z, tx.createdAt, env.volumeVal, volume, count)
      && ctx == ContextOf(volume, count, |senders|, GroupCount(env.stats), GroupTotal(env.stats), GroupP2p(env.stats));
    var w := AcctOf(s, tx.from).window;
    var answer := Answer(tx, s.pipe.history);
    StandsIs(z, w, NamesOf(names, tx.from));
    ReadStands(w, NamesOf(names, tx.from), tx.createdAt, env.volumeVal, answer, env.name);
    YieldsOnce(z, tx.createdAt, env.volumeVal, volume, count,
               Read(w, tx.createdAt, answer).volume, Read(w, tx.createdAt, answer).count);
    MetricsAre(s, tx);
  }

  lemma StandsIs(z: ZSet, w: Window, names: seq<string>)
    requires Stands(z, w, names)
    ensures |names| == |w.live| && GoodNames(names) && z == Encode(w, names)
  {
  }

  lemma MetricsAre(s: State, tx: Tx)
    ensures var r, (c, m) := Read(AcctOf(s, tx.from).window, tx.createdAt, Answer(tx, s.pipe.history)), ReadOf(s, tx);
      m.volume == r.volume && m.count == r.count && c.window == r.window
  {
  }

  lemma SameEvent(e: Event, tx: Tx, env: Surroundings, s: State, names: Names, z: ZSet, senders: set<AccountId>)
    requires Agrees(env, s, tx, names) && Stands(z, AcctOf(s, tx.from).window, NamesOf(names, tx.from))
    requires senders == RecvOf(s, tx.to).senders && Decided(e, tx, env, z, senders)
    ensures e == EventAt(s, tx)
  {
    hide ContextSeen, Stands, StatusOf, RunEngine, ContextAt;
    var ctx :| ContextSeen(ctx, tx, env, z, senders) && e.results == RunEngine(CONFIGURED, tx, ctx);
    SameContext(ctx, tx, env, s, names, z, senders);
    assert Results(tx, ctx) == RunEngine(CONFIGURED, tx, ctx);
  }

  // --- The stores after the call -------------------------------------------------------------

  lemma SetAfter(s: State, tx: Tx, env: Surroundings, names: Names, z: ZSet)
    requires Agrees(env, s, tx, names) && Stands(z, AcctOf(s, tx.from).window, NamesOf(names, tx.from))
    ensures var w := ReadOf(s, tx).0.window;
      var left := NamesLeft(AcctOf(s, tx.from).window, NamesOf(names, tx.from), tx.createdAt);
      && Stands(Left(z, tx.createdAt, env.volumeVal), w, left)
      && Stands(Left(z, tx.createdAt, env.volumeVal)[Member(env.name, tx.amount) := tx.createdAt],
                w.Add(tx), left + [env.name])
  {
    hide Read, ReadOf, Left, Encode, Yields, GoodNames, NamesLeft;
    var w, ns := AcctOf(s, tx.from).window, NamesOf(names, tx.from);
    var r := Read(w, tx.createdAt, Answer(tx, s.pipe.history));
    ReadStands(w, ns, tx.createdAt, env.volumeVal, Answer(tx, s.pipe.history), env.name);
    MetricsAre(s, tx);
    AddRefines(r.window, NamesLeft(w, ns, tx.createdAt), tx, env.name);
  }

  lemma SoloAcct(s: State, e: nat, tx: Tx, ending: Ending, b: AccountId)
    ensures var t, w := After(s, e, tx, ending), ReadOf(s, tx).0.window;
      && AcctOf(t, tx.from).window == (if ending.WithoutVolume? then w else w.Add(tx))
      && AcctOf(t, tx.from).deadline ==
         (if ending.WithoutVolume? then ReadOf(s, tx).0.deadline else s.now + 1 + DAY)
      && (b != tx.from ==> AcctOf(t, b) == AcctOf(s, b))
  {
    hide ReadOf, RecvAt, StatusAt, EventAt, InTrail, Passes, OnSave, OnAddSender, OnMissSender;
  }

  lemma SoloRecv(s: State, e: nat, tx: Tx, ending: Ending, r: AccountId)
    ensures RecvOf(After(s, e, tx, ending), r).senders ==
            RecvOf(s, r).senders + (if r == tx.to && ending.Cachedly? then {tx.from} else {})
    ensures RecvOf(After(s, e, tx, ending), r).deadline ==
            if r == tx.to && ending.Cachedly? then s.now + 1 + DAY else RecvOf(s, r).deadline
  {
    hide ReadOf, AcctAt, StatusAt, EventAt, OnAdd, OnDrop, OnClose, OnSave;
  }

  lemma SoloStores(s: State, e: nat, tx: Tx, ending: Ending)
    ensures var t := After(s, e, tx, ending); t.locks == s.locks && t.pipe == OnSave(s.pipe, EventAt(s, tx), s.now)
  {
    hide ReadOf, AcctAt, RecvAt, EventAt, OnAdd, OnDrop, OnClose, OnSave, OnAddSender, OnMissSender;
  }

  lemma AbortStores(s: State, e: nat, tx: Tx)
    ensures var t := AfterAbort(s, e, tx);
      && t.locks == s.locks && t.pipe == s.pipe && (forall x :: RecvOf(t, x) == RecvOf(s, x))
      && AcctOf(t, tx.from).window == ReadOf(s, tx).0.window
      && AcctOf(t, tx.from).deadline == ReadOf(s, tx).0.deadline
      && (forall b | b != tx.from :: AcctOf(t, b) == AcctOf(s, b))
  {
    hide ReadOf, Passes;
  }

  // The names after the call.
  ghost function NamesAfter(s: State, tx: Tx, names: Names, r: Outcome, env: Surroundings): Names
    requires |NamesOf(names, tx.from)| == |AcctOf(s, tx.from).window.live|
  {
    var left := NamesLeft(AcctOf(s, tx.from).window, NamesOf(names, tx.from), tx.createdAt);
    if r.LockTimeout? then names
    else if r.Evaluated? && !env.cacheFault.AtVolume? then names[tx.from := left + [env.name]]
    else names[tx.from := left]
  }

  // Where the machine stands after the call.
  ghost function StateAfter(s: State, e: nat, tx: Tx, r: Outcome, env: Surroundings): State {
    match r
    case LockTimeout => Step(s, TryLock(e, tx))
    case Failed => Steps(s, AbortActions(e, tx))
    case Evaluated(_, _) => Steps(s, SoloActions(e, tx, EndingOf(env.cacheFault)))
  }

  lemma SetsAfter(s: State, e: nat, tx: Tx, names: Names, r: Outcome, env: Surroundings, z: ZSet, b: AccountId, y: ZSet)
    requires Free(s, e, tx) && !r.LockTimeout? && Agrees(env, s, tx, names)
    requires Stands(z, AcctOf(s, tx.from).window, NamesOf(names, tx.from))
    requires b != tx.from ==> Stands(y, AcctOf(s, b).window, NamesOf(names, b))
    requires b == tx.from ==>
      var left := Left(z, tx.createdAt, env.volumeVal); y == if r.Evaluated? then AddedTo(left, tx, env) else left
    ensures Stands(y, AcctOf(StateAfter(s, e, tx, r, env), b).window, NamesOf(NamesAfter(s, tx, names, r, env), b))
  {
    hide Steps, SoloActions, AbortActions, After, AfterAbort, Agrees, Left, Encode, GoodNames, NamesLeft, ReadOf,
      AcctOf, Free;
    SetAfter(s, tx, env, names, z);
    SoloEnds(s, e, tx, EndingOf(env.cacheFault));
    AbortEnds(s, e, tx);
    SoloAcct(s, e, tx, EndingOf(env.cacheFault), b);
    AbortStores(s, e, tx);
  }

  lemma StoresAfter(s: State, e: nat, tx: Tx, r: Outcome, env: Surroundings)
    requires Free(s, e, tx) && env.now == s.now && env.eventId == |s.pipe.wal|
    ensures var t := StateAfter(s, e, tx, r, env);
      && (r.Failed? ==> t.locks == s.locks && t.pipe == s.pipe && forall x :: RecvOf(t, x) == RecvOf(s, x))
      && (r.Evaluated? ==>
            && t.locks == s.locks && t.pipe == OnSave(s.pipe, EventAt(s, tx), s.now)
            && Events(t.pipe.wal) == Events(s.pipe.wal) + [EventAt(s, tx)]
            && forall x :: RecvOf(t, x).senders ==
                 RecvOf(s, x).senders + (if x == tx.to && EndingOf(env.cacheFault).Cachedly? then {tx.from} else {}))
  {
    hide Steps, SoloActions, AbortActions, After, AfterAbort, ReadOf, AcctOf, RecvOf, Free, EventAt, OnSave, Events;
    var ending := EndingOf(env.cacheFault);
    SoloEnds(s, e, tx, ending);
    AbortEnds(s, e, tx);
    SoloStores(s, e, tx, ending);
    AbortStores(s, e, tx);
    EventsOfSave(s.pipe, EventAt(s, tx), s.now);
    forall x ensures RecvOf(After(s, e, tx, ending), x).senders ==
                     RecvOf(s, x).senders + (if x == tx.to && ending.Cachedly? then {tx.from} else {}) {
      SoloRecv(s, e, tx, ending, x);
    }
  }

  // --- The expiries after the call -------------------------------------------------------------

  lemma ReadDeadline(s: State, tx: Tx)
    ensures var c := AcctOf(s, tx.from);
      ReadOf(s, tx).0.deadline ==
      if !c.window.Exists() && Answer(tx, s.pipe.history) > 0 then s.now + DAY else c.deadline
  {
    hide Read, Recovered, Unrecovered, Answer, TrimmedBy, ShowsLater;
  }

  // The read starts an expiry exactly where the machine sets a deadline.
  lemma TimedByRead(k: Keys, s: State, names: Names, tx: Tx, env: Surroundings)
    requires Timed(k, s) && Sane(k) && Agrees(env, s, tx, names)
    requires tx.from in k.volumes <==> AcctOf(s, tx.from).window.Exists()
    ensures var r := KeysRead(k, tx.from, tx.createdAt, env.volumeVal, env.txCount30d, env.now);
      && r.sendersExpiry == k.sendersExpiry
      && (forall a | a in r.volumeExpiry ::
            r.volumeExpiry[a] == if a == tx.from then ReadOf(s, tx).0.deadline else AcctOf(s, a).deadline)
  {
    hide ReadOf, Answer, GoodNames, FetchGroupedStats, KeysRead, AcctOf;
    ExpiriesRead(k, tx.from, tx.createdAt, env.volumeVal, env.txCount30d, env.now);
    ReadDeadline(s, tx);
  }

  // What an uninterrupted evaluation leaves of the deadlines.
  lemma DeadlinesAfter(s: State, e: nat, tx: Tx, r: Outcome, env: Surroundings, a: AccountId)
    requires Free(s, e, tx) && !r.LockTimeout?
    ensures AcctOf(StateAfter(s, e, tx, r, env), a).deadline ==
            if a != tx.from then AcctOf(s, a).deadline
            else if r.Failed? || env.cacheFault.AtVolume? then ReadOf(s, tx).0.deadline
            else s.now + 1 + DAY
    ensures RecvOf(StateAfter(s, e, tx, r, env), a).deadline ==
            if a == tx.to && r.Evaluated? && (env.cacheFault.NoFault? || env.cacheFault.AtActive?) then s.now + 1 + DAY
            else RecvOf(s, a).deadline
  {
    hide Steps, SoloActions, AbortActions, After, AfterAbort, ReadOf, AcctOf, RecvOf, Free;
    var ending := EndingOf(env.cacheFault);
    SoloEnds(s, e, tx, ending);
    AbortEnds(s, e, tx);
    AbortStores(s, e, tx);
    SoloAcct(s, e, tx, ending, a);
    SoloRecv(s, e, tx, ending, a);
  }

  lemma TimedAfter(
    k: Keys, s: State, e: nat, names: Names, tx: Tx, env: Surroundings, r: Outcome)
    requires Timed(k, s) && Sane(k) && Agrees(env, s, tx, names) && Free(s, e, tx) && !r.LockTimeout?
    requires tx.from in k.volumes <==> AcctOf(s, tx.from).window.Exists()
    ensures Timed(StateLeft(k, tx, env, r), StateAfter(s, e, tx, r, env))
  {
    hide KeysRead, KeysAdded, StateAfter, ReadOf, AcctOf, RecvOf, Free, GoodNames, FetchGroupedStats, Answer;
    var t := StateAfter(s, e, tx, r, env);
    var read := KeysRead(k, tx.from, tx.createdAt, env.volumeVal, env.txCount30d, env.now);
    var left := StateLeft(k, tx, env, r);
    TimedByRead(k, s, names, tx, env);
    if r.Evaluated? {
      ExpiriesAdded(
        read, tx.from, tx.to, Member(env.name, tx.amount), tx.createdAt, env.cachedAt, env.cacheFault);
    }
    forall a | a in left.volumeExpiry ensures left.volumeExpiry[a] == AcctOf(t, a).deadline {
      DeadlinesAfter(s, e, tx, r, env, a);
    }
    forall x | x in left.sendersExpiry ensures left.sendersExpiry[x] == RecvOf(t, x).deadline {
      DeadlinesAfter(s, e, tx, r, env, x);
    }
  }

  // The set exists exactly where the window does.
  lemma ExistsAlike(z: ZSet, w: Window, names: seq<string>)
    requires Stands(z, w, names)
    ensures z == map[] <==> !w.Exists()
  {
    EncodeSums(w, names);
    assert |z| == 0 <==> z == map[];
  }

  // One call, whatever fails in it, does to the stores what one uninterrupted evaluation of the machine
  // does to its state, and returns the event the machine commits.
  method EvaluateAsMachine(
    service: TransactionEvaluationService, tx: Tx, env: Surroundings, ghost s: State, ghost e: nat, ghost names: Names)
    returns (r: Outcome)
    requires Represents(service, s, names) && Agrees(env, s, tx, names)
    requires PcOf(s, e).Idle? && (KeyOf(tx) in s.book ==> s.book[KeyOf(tx)] == tx)
    modifies service, service.cache, service.db
    ensures r.LockTimeout? <==> tx.from in s.locks
    ensures r.Evaluated? ==> r.event == EventAt(s, tx)
    ensures |NamesOf(names, tx.from)| == |AcctOf(s, tx.from).window.live|
    ensures Represents(service, StateAfter(s, e, tx, r, env), NamesAfter(s, tx, names, r, env))
  {
    hide Agrees, Stands, Decided, StateAfter, NamesAfter, Events, Left, AddedTo, AcctOf, RecvOf, ContextAt, Decide,
      Results, RowFor, Timed, StateLeft, Sane, UnreadableAt;
    ghost var z, senders := service.cache.SetOf(tx.from), Held(service.cache.senders, tx.to);
    assert Stands(z, AcctOf(s, tx.from).window, NamesOf(names, tx.from));
    StandsIs(z, AcctOf(s, tx.from).window, NamesOf(names, tx.from));
    ExistsAlike(z, AcctOf(s, tx.from).window, NamesOf(names, tx.from));
    ghost var k := service.cache.State();
    SetThere(k, tx.from);
    r := service.Evaluate(tx, env);
    if r.LockTimeout? {
      TimeoutStays(s, e, tx, names, r, env);
      NothingLeft(k, tx, env, r);
    } else {
      TimedAfter(k, s, e, names, tx, env, r);
      AgreesOn(env, s, tx, names);
      StoresAfter(s, e, tx, r, env);
      if r.Evaluated? {
        SameEvent(r.event, tx, env, s, names, z, senders);
      }
      forall b ensures Stands(service.cache.SetOf(b), AcctOf(StateAfter(s, e, tx, r, env), b).window,
                              NamesOf(NamesAfter(s, tx, names, r, env), b)) {
        SetsAfter(s, e, tx, names, r, env, z, b, service.cache.SetOf(b));
      }
      ghost var t := StateAfter(s, e, tx, r, env);
      assert service.locks == t.locks.Keys;
      assert service.db.rows == t.pipe.rows;
      assert service.db.outbox == t.pipe.outbox;
      assert Events(service.db.wal) == Events(t.pipe.wal);
      assert forall x :: Held(service.cache.senders, x) == RecvOf(t, x).senders;
    }
  }

  lemma SetThere(k: Keys, a: AccountId)
    requires Sane(k)
    ensures a in k.volumes <==> (if a in k.volumes then k.volumes[a] else map[]) != map[]
  {
  }

  lemma NothingLeft(k: Keys, tx: Tx, env: Surroundings, r: Outcome)
    requires r.LockTimeout?
    ensures StateLeft(k, tx, env, r) == k
  {
  }

  lemma TimeoutStays(s: State, e: nat, tx: Tx, names: Names, r: Outcome, env: Surroundings)
    requires r.LockTimeout? && tx.from in s.locks
    requires |NamesOf(names, tx.from)| == |AcctOf(s, tx.from).window.live|
    ensures StateAfter(s, e, tx, r, env) == s && NamesAfter(s, tx, names, r, env) == names
  {
  }

  lemma AgreesOn(env: Surroundings, s: State, tx: Tx, names: Names)
    requires Agrees(env, s, tx, names)
    ensures env.now == s.now && env.eventId == |s.pipe.wal|
  {
  }

  // --- Expiry ------------------------------------------------------------------------------------

  lemma ExpiredVolume(s: State, a: AccountId)
    ensures var t := Step(s, ExpireVolume(a));
      && t.locks == s.locks && t.pipe == s.pipe && t.recvs == s.recvs
      && (forall b | b != a :: AcctOf(t, b) == AcctOf(s, b))
      && AcctOf(t, a).deadline == AcctOf(s, a).deadline
      && AcctOf(t, a).window == (if AcctOf(s, a).window.Exists() && AcctOf(s, a).deadline <= s.now then EMPTY
                                 else AcctOf(s, a).window)
  {
    hide Holder, WithTear;
  }

  lemma ExpiredSenders(s: State, r: AccountId)
    ensures var t := Step(s, ExpireSenders(r));
      && t.locks == s.locks && t.pipe == s.pipe && t.accts == s.accts
      && (forall x :: RecvOf(t, x).deadline == RecvOf(s, x).deadline)
      && (forall x :: RecvOf(t, x).senders ==
            if x == r && RecvOf(s, r).deadline <= s.now then {} else RecvOf(s, x).senders)
  {
    hide UnsettledSenders;
  }

  ghost predicate SameDeadlines(s: State, t: State) {
    && (forall a :: AcctOf(t, a).deadline == AcctOf(s, a).deadline)
    && (forall r :: RecvOf(t, r).deadline == RecvOf(s, r).deadline)
  }

  // Nothing the keys show has changed.
  lemma MirrorsSame(k: Keys, s: State, t: State, names: Names)
    requires Mirrors(k, s, names) && SameDeadlines(s, t)
    requires forall a :: AcctOf(t, a).window == AcctOf(s, a).window
    requires forall r :: RecvOf(t, r).senders == RecvOf(s, r).senders
    ensures Mirrors(k, t, names)
  {
    hide Stands, Sane, AcctOf, RecvOf, Held;
  }

  // One set has gone.
  lemma MirrorsWithout(k: Keys, s: State, t: State, names: Names, a: AccountId)
    requires Mirrors(k, s, names) && SameDeadlines(s, t)
    requires AcctOf(t, a).window == EMPTY && forall b | b != a :: AcctOf(t, b).window == AcctOf(s, b).window
    requires forall r :: RecvOf(t, r).senders == RecvOf(s, r).senders
    ensures Mirrors(KeysWithoutVolume(k, a), t, names[a := []])
  {
    hide AcctOf, RecvOf, Held;
    EmptyStands();
    WithoutIsSane(k, a);
    hide Stands, Sane, KeysWithoutVolume, KeysWithoutSenders;
    var left := KeysWithoutVolume(k, a);
    forall b ensures Stands(SetIn(left, b), AcctOf(t, b).window, NamesOf(names[a := []], b)) {
      assert b != a ==> SetIn(left, b) == SetIn(k, b) && NamesOf(names[a := []], b) == NamesOf(names, b);
    }
  }

  lemma MirrorsByExpiry(k: Keys, s: State, names: Names, a: AccountId)
    requires Mirrors(k, s, names)
    ensures a in k.volumes && k.volumeExpiry[a] <= s.now ==>
      Mirrors(KeysWithoutVolume(k, a), Step(s, ExpireVolume(a)),
              names[a := []])
    ensures !(a in k.volumes && k.volumeExpiry[a] <= s.now) ==> Mirrors(k, Step(s, ExpireVolume(a)), names)
  {
    var t := Step(s, ExpireVolume(a));
    DueAlike(k, s, names, a);
    hide Mirrors, Step, AcctOf, RecvOf;
    ExpiredVolume(s, a);
    SameRecvs(s, t);
    assert SameDeadlines(s, t) by {
      assert forall b :: AcctOf(t, b).deadline == AcctOf(s, b).deadline;
    }
    if AcctOf(t, a).window == EMPTY && a in k.volumes && k.volumeExpiry[a] <= s.now {
      MirrorsWithout(k, s, t, names, a);
    } else {
      MirrorsSame(k, s, t, names);
    }
  }

  // The key is there and due exactly when the machine's window is.
  lemma DueAlike(k: Keys, s: State, names: Names, a: AccountId)
    requires Mirrors(k, s, names)
    ensures a in k.volumes <==> AcctOf(s, a).window.Exists()
    ensures a in k.volumes ==> a in k.volumeExpiry && k.volumeExpiry[a] == AcctOf(s, a).deadline
  {
    hide Stands, Held;
    ExistsAlike(SetIn(k, a), AcctOf(s, a).window, NamesOf(names, a));
  }

  lemma SameRecvs(s: State, t: State)
    requires t.recvs == s.recvs
    ensures forall r :: RecvOf(t, r) == RecvOf(s, r)
  {
  }

  lemma EmptyStands()
    ensures Stands(map[], EMPTY, [])
  {
  }

  lemma MirrorsWithoutSenders(k: Keys, s: State, t: State, names: Names, r: AccountId)
    requires Mirrors(k, s, names) && SameDeadlines(s, t)
    requires forall a :: AcctOf(t, a).window == AcctOf(s, a).window
    requires RecvOf(t, r).senders == {} && forall x | x != r :: RecvOf(t, x).senders == RecvOf(s, x).senders
    ensures Mirrors(KeysWithoutSenders(k, r), t, names)
  {
    WithoutIsSane(k, r);
    hide Stands, Sane, AcctOf, RecvOf, KeysWithoutVolume, KeysWithoutSenders;
    HeldWithout(k, r);
    hide Held, SetIn;
  }

  lemma HeldWithout(k: Keys, r: AccountId)
    ensures var v := KeysWithoutSenders(k, r);
      && (forall x :: Held(v.senders, x) == if x == r then {} else Held(k.senders, x))
      && (forall a :: SetIn(v, a) == SetIn(k, a))
  {
  }

  lemma MirrorsBySenderExpiry(k: Keys, s: State, names: Names, r: AccountId)
    requires Mirrors(k, s, names)
    ensures var t := Step(s, ExpireSenders(r));
      Mirrors(if r in k.senders && k.sendersExpiry[r] <= s.now
              then KeysWithoutSenders(k, r) else k, t, names)
  {
    var t := Step(s, ExpireSenders(r));
    SendersDueAlike(k, s, names, r);
    hide Mirrors, Step, RecvOf;
    ExpiredSenders(s, r);
    assert forall a :: AcctOf(t, a) == AcctOf(s, a);
    hide AcctOf;
    assert SameDeadlines(s, t);
    if r in k.senders && k.sendersExpiry[r] <= s.now {
      MirrorsWithoutSenders(k, s, t, names, r);
    } else {
      MirrorsSame(k, s, t, names);
    }
  }

  lemma SendersDueAlike(k: Keys, s: State, names: Names, r: AccountId)
    requires Mirrors(k, s, names)
    ensures r in k.senders ==> r in k.sendersExpiry && k.sendersExpiry[r] == RecvOf(s, r).deadline
    ensures r !in k.senders ==> RecvOf(s, r).senders == {}
  {
    hide Stands;
    assert Held(k.senders, r) == RecvOf(s, r).senders;
  }

  // Redis drops a sorted set whose expiry has come, on the machine's clock, exactly when the machine lets it
  // expire.
  method ExpireVolumeAsMachine(
    service: TransactionEvaluationService, a: AccountId, ghost s: State, now: int, ghost names: Names)
    requires Represents(service, s, names) && now == s.now
    modifies service.cache
    ensures Represents(service, Step(s, ExpireVolume(a)),
                       if old(a in service.cache.volumes && service.cache.volumeExpiry[a] <= now)
                       then names[a := []] else names)
    ensures a in service.cache.volumes <==>
            old(a in service.cache.volumes && now < service.cache.volumeExpiry[a])
  {
    hide Mirrors, Events, Step;
    ghost var k := service.cache.State();
    IsSane(k, s, names);
    MirrorsByExpiry(k, s, names, a);
    ExpiredVolume(s, a);
    service.cache.DropDueVolume(a, now);
  }

  lemma IsSane(k: Keys, s: State, names: Names)
    requires Mirrors(k, s, names)
    ensures Sane(k)
  {
  }

  // And a sender set likewise.
  method ExpireSendersAsMachine(
    service: TransactionEvaluationService, r: AccountId, ghost s: State, now: int, ghost names: Names)
    requires Represents(service, s, names) && now == s.now
    modifies service.cache
    ensures Represents(service, Step(s, ExpireSenders(r)), names)
    ensures r in service.cache.senders <==>
            old(r in service.cache.senders && now < service.cache.sendersExpiry[r])
  {
    hide Mirrors, Events, Step;
    ghost var k := service.cache.State();
    IsSane(k, s, names);
    MirrorsBySenderExpiry(k, s, names, r);
    ExpiredSenders(s, r);
    service.cache.DropDueSenders(r, now);
  }
}
