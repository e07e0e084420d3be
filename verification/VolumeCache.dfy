/** The cache over Redis: a sorted set per account, a sender set per receiver, an activity mark per
    account, each with an expiry. */
module VolumeCache {
  import opened Domain
  import opened Sums
  import opened Window
  import opened Members

  datatype Metrics24h = Metrics24h(volume24h: nat, txCount24h: nat, hasHistoricalActivity: bool)

  // How far `AddTransaction` gets before Redis throws, if it does.
  datatype Fault = NoFault | AtVolume | AtSenders | AtActive

  // The volume and count a set shows at `t`: its own sum and size after the trim, or, when there is no
  // set, the table's answer.
  ghost predicate Yields(z: ZSet, t: nat, volumeVal: Option<nat>, volume: nat, count: nat) {
    if z == map[] then
      volume == (if volumeVal.Some? then volumeVal.value else 0) && count == if volume > 0 then 1 else 0
    else
      var kept := RemoveRange(z, t - DAY);
      Readable(kept) && volume == SumOf(kept) && count == |kept|
  }

  // What a read at `t` leaves of a set: the part in the window, or, of a set that does not exist, the seed.
  ghost function Left(z: ZSet, t: nat, volumeVal: Option<nat>): ZSet {
    if z != map[] then RemoveRange(z, t - DAY)
    else if volumeVal.Some? && volumeVal.value > 0 then map[Member(SEED_NAME, volumeVal.value) := t]
    else map[]
  }

  // Everything Redis holds for the cache, with the instants at which the keys expire.
  datatype Keys = Keys(
    volumes: map<AccountId, ZSet>, volumeExpiry: map<AccountId, int>,
    senders: map<AccountId, set<AccountId>>, sendersExpiry: map<AccountId, int>, active: map<AccountId, int>)

  // Redis keeps no empty sorted set, and every set has an expiry.
  ghost predicate Sane(k: Keys) {
    && (forall a | a in k.volumes :: k.volumes[a] != map[])
    && k.volumeExpiry.Keys == k.volumes.Keys && k.sendersExpiry.Keys == k.senders.Keys
  }

  // What a read leaves: a set keeps its expiry unless the trim empties it, and only a seed starts a new one.
  ghost function KeysRead(k: Keys, a: AccountId, t: nat, volumeVal: Option<nat>, txCount30d: nat, now: int): Keys {
    if a in k.volumes then
      var left := Left(k.volumes[a], t, volumeVal);
      if left == map[] then k.(volumes := k.volumes - {a}, volumeExpiry := k.volumeExpiry - {a})
      else k.(volumes := k.volumes[a := left])
    else
      var left, r := Left(map[], t, volumeVal),
                     k.(active := if txCount30d > 0 then k.active[a := now + 2 * THIRTY_DAYS] else k.active);
      if left == map[] then r
      else r.(volumes := k.volumes[a := left], volumeExpiry := k.volumeExpiry[a := now + DAY])
  }

  // The three writes of an add.
  function KeysWithMember(k: Keys, a: AccountId, member: string, t: nat, now: int): Keys {
    k.(volumes := k.volumes[a := (if a in k.volumes then k.volumes[a] else map[])[member := t]],
       volumeExpiry := k.volumeExpiry[a := now + DAY])
  }

  function KeysWithSender(k: Keys, a: AccountId, to: AccountId, now: int): Keys {
    k.(senders := k.senders[to := (if to in k.senders then k.senders[to] else {}) + {a}],
       sendersExpiry := k.sendersExpiry[to := now + DAY])
  }

  function KeysActive(k: Keys, a: AccountId, now: int): Keys {
    k.(active := k.active[a := now + 2 * THIRTY_DAYS])
  }

  // What an add leaves, as far as it gets.
  function KeysAdded(k: Keys, a: AccountId, to: AccountId, member: string, t: nat, now: int, fault: Fault): Keys {
    if fault.AtVolume? then k
    else
      var v := KeysWithMember(k, a, member, t, now);
      if fault.AtSenders? then v
      else
        var w := KeysWithSender(v, a, to, now);
        if fault.AtActive? then w else KeysActive(w, a, now)
  }

  function KeysWithoutVolume(k: Keys, a: AccountId): Keys {
    k.(volumes := k.volumes - {a}, volumeExpiry := k.volumeExpiry - {a})
  }

  function KeysWithoutSenders(k: Keys, r: AccountId): Keys {
    k.(senders := k.senders - {r}, sendersExpiry := k.sendersExpiry - {r})
  }

  lemma WithoutIsSane(k: Keys, a: AccountId)
    requires Sane(k)
    ensures Sane(KeysWithoutVolume(k, a)) && Sane(KeysWithoutSenders(k, a))
    ensures var v := KeysWithoutVolume(k, a);
      && v.senders == k.senders && v.sendersExpiry == k.sendersExpiry
      && (forall b :: b in v.volumes <==> b in k.volumes && b != a)
      && (forall b | b in v.volumes :: v.volumes[b] == k.volumes[b])
      && (forall b | b in v.volumeExpiry :: b in k.volumeExpiry && v.volumeExpiry[b] == k.volumeExpiry[b])
    ensures var v := KeysWithoutSenders(k, a);
      && v.volumes == k.volumes && v.volumeExpiry == k.volumeExpiry
      && (forall b :: b in v.senders <==> b in k.senders && b != a)
      && (forall b | b in v.senders :: v.senders[b] == k.senders[b])
      && (forall b | b in v.sendersExpiry :: b in k.sendersExpiry && v.sendersExpiry[b] == k.sendersExpiry[b])
  {
    assert (k.volumeExpiry - {a}).Keys == k.volumeExpiry.Keys - {a};
    assert (k.volumes - {a}).Keys == k.volumes.Keys - {a};
    assert (k.sendersExpiry - {a}).Keys == k.sendersExpiry.Keys - {a};
    assert (k.senders - {a}).Keys == k.senders.Keys - {a};
  }

  // The expiries a read leaves, and those an add leaves.
  lemma ExpiriesRead(k: Keys, a: AccountId, t: nat, volumeVal: Option<nat>, txCount30d: nat, now: int)
    ensures var r := KeysRead(k, a, t, volumeVal, txCount30d, now);
      && r.sendersExpiry == k.sendersExpiry
      && (forall b | b in r.volumeExpiry && (b != a || a in k.volumes) ::
            b in k.volumeExpiry && r.volumeExpiry[b] == k.volumeExpiry[b])
      && (a !in k.volumes ==>
            if volumeVal.Some? && volumeVal.value > 0
            then a in r.volumeExpiry && r.volumeExpiry[a] == now + DAY
            else r.volumeExpiry == k.volumeExpiry)
  {
    hide RemoveRange, Member;
    if a !in k.volumes && volumeVal.Some? && volumeVal.value > 0 {
      assert Member(SEED_NAME, volumeVal.value) in Left(map[], t, volumeVal);
    }
  }

  lemma ExpiriesAdded(k: Keys, a: AccountId, to: AccountId, member: string, t: nat, now: int, fault: Fault)
    ensures var r := KeysAdded(k, a, to, member, t, now, fault);
      && r.volumeExpiry == (if fault.AtVolume? then k.volumeExpiry else k.volumeExpiry[a := now + DAY])
      && r.sendersExpiry ==
         if fault.AtVolume? || fault.AtSenders? then k.sendersExpiry else k.sendersExpiry[to := now + DAY]
  {
  }

  class AccountVolumeCache {
    var volumes: map<AccountId, ZSet>
    var volumeExpiry: map<AccountId, int>
    var senders: map<AccountId, set<AccountId>>
    var sendersExpiry: map<AccountId, int>
    var active: map<AccountId, int>

    ghost predicate Valid() reads this { Sane(State()) }

    ghost function State(): Keys reads this { Keys(volumes, volumeExpiry, senders, sendersExpiry, active) }

    ghost function SetOf(a: AccountId): ZSet reads this { if a in volumes then volumes[a] else map[] }

    constructor ()
      ensures Valid() && State() == Keys(map[], map[], map[], map[], map[])
    {
      volumes, volumeExpiry, senders, sendersExpiry, active := map[], map[], map[], map[], map[];
    }

    // None stands for the exception thrown on an unreadable amount.
    static method CalculateSum(z: ZSet) returns (sum: Option<nat>)
      ensures sum == if Readable(z) then Some(SumOf(z)) else None
    {
      var total: nat := 0;
      var remaining := z.Keys;
      ghost var done: ZSet := map[];
      while remaining != {}
        invariant remaining <= z.Keys && done.Keys == z.Keys - remaining
        invariant forall m | m in done :: done[m] == z[m]
        invariant Readable(done) && total == SumOf(done)
      {
        var m :| m in remaining;
        var amount := AmountIn(m);
        if amount.None? {
          return None;
        }
        SumOfAdd(done, m, z[m]);
        total := total + amount.value;
        remaining, done := remaining - {m}, done[m := z[m]];
      }
      assert done == z;
      sum := Some(total);
    }

    // The metrics of the account at `t`. `volumeVal` and `txCount30d` are the answers of the history
    // table, asked only when the key is absent.
    method Get24hMetrics(a: AccountId, t: nat, volumeVal: Option<nat>, txCount30d: nat, now: int)
      returns (m: Option<Metrics24h>)
      requires Valid()
      modifies this
      ensures Valid()
      ensures forall b | b != a :: SetOf(b) == old(SetOf(b))
      ensures senders == old(senders) && sendersExpiry == old(sendersExpiry)
      ensures SetOf(a) == Left(old(SetOf(a)), t, volumeVal)
      ensures State() == KeysRead(old(State()), a, t, volumeVal, txCount30d, now)
      ensures m.Some? ==> Yields(old(SetOf(a)), t, volumeVal, m.value.volume24h, m.value.txCount24h)
      ensures old(a in volumes) ==>
        && var kept := RemoveRange(old(SetOf(a)), t - DAY);
        && active == old(active)
        && (m.Some? <==> Readable(kept))
        && (m.Some? ==> m.value == Metrics24h(SumOf(kept), |kept|, true))
      ensures old(a in volumes) ==>
        && (forall x :: x in SetOf(a) <==>
              x in old(SetOf(a)) && (old(SetOf(a))[x] < 0 || t - 86_400_000 <= old(SetOf(a))[x]))
        && (forall x | x in SetOf(a) :: SetOf(a)[x] == old(SetOf(a))[x])
        && volumeExpiry == if SetOf(a) == map[] then old(volumeExpiry) - {a} else old(volumeExpiry)
      ensures old(a !in volumes) ==>
        && var v := if volumeVal.Some? then volumeVal.value else 0;
        && m == Some(Metrics24h(v, if v > 0 then 1 else 0, txCount30d > 0))
        && volumeExpiry == (if v > 0 then old(volumeExpiry)[a := now + 86_400_000] else old(volumeExpiry))
        && active == if txCount30d > 0 then old(active)[a := now + 5_184_000_000] else old(active)
    {
      if a !in volumes {
        var metrics := FetchAndPopulate(a, t, volumeVal, txCount30d, now);
        return Some(metrics);
      }
      var kept := TrimVolume(a, t - DAY);
      var sum := CalculateSum(kept);
      if sum.None? {
        return None;
      }
      m := Some(Metrics24h(sum.value, |kept|, true));
    }

    // A set trimmed to nothing is gone, and its expiry with it.
    method TrimVolume(a: AccountId, start: int) returns (kept: ZSet)
      requires Valid() && a in volumes
      modifies this
      ensures Valid() && kept == SetOf(a) == RemoveRange(old(SetOf(a)), start)
      ensures forall b | b != a :: SetOf(b) == old(SetOf(b))
      ensures senders == old(senders) && sendersExpiry == old(sendersExpiry) && active == old(active)
      ensures kept == map[] ==> volumes == old(volumes) - {a} && volumeExpiry == old(volumeExpiry) - {a}
      ensures kept != map[] ==> volumes == old(volumes)[a := kept] && volumeExpiry == old(volumeExpiry)
    {
      kept := RemoveRange(volumes[a], start);
      if kept == map[] {
        volumes, volumeExpiry := volumes - {a}, volumeExpiry - {a};
      } else {
        volumes := volumes[a := kept];
      }
    }

    method FetchAndPopulate(a: AccountId, t: nat, volumeVal: Option<nat>, txCount30d: nat, now: int)
      returns (m: Metrics24h)
      requires Valid() && a !in volumes
      modifies this
      ensures Valid()
      ensures forall b | b != a :: SetOf(b) == old(SetOf(b))
      ensures senders == old(senders) && sendersExpiry == old(sendersExpiry)
      ensures var v := if volumeVal.Some? then volumeVal.value else 0;
        && SetOf(a) == (if v > 0 then map["INITIAL_HISTORICAL_SUM" + ":" + Digits(v) := t] else map[])
        && m == Metrics24h(v, if v > 0 then 1 else 0, txCount30d > 0)
        && volumes == (if v > 0 then old(volumes)[a := map[Member(SEED_NAME, v) := t]] else old(volumes))
        && volumeExpiry == (if v > 0 then old(volumeExpiry)[a := now + 86_400_000] else old(volumeExpiry))
        && active == if txCount30d > 0 then old(active)[a := now + 5_184_000_000] else old(active)
    {
      var volume24h := if volumeVal.Some? then volumeVal.value else 0;
      if volume24h > 0 {
        var seeded: ZSet := map[Member(SEED_NAME, volume24h) := t];
        assert Member(SEED_NAME, volume24h) in seeded;
        volumes := volumes[a := seeded];
        volumeExpiry := volumeExpiry[a := now + DAY];
      }
      var hasActivity := txCount30d > 0;
      if hasActivity {
        active := active[a := now + 2 * THIRTY_DAYS];
      }
      m := Metrics24h(volume24h, if volume24h > 0 then 1 else 0, hasActivity);
    }

    method GetUniqueCounterparties24h(to: AccountId) returns (count: nat)
      ensures count == if to in senders then |senders[to]| else 0
    {
      if to in senders {
        count := |senders[to]|;
      } else {
        count := 0;
      }
    }

    // Three writes in this order; an exception leaves the earlier ones in place. `name` is the fresh
    // random name of the entry.
    method AddTransaction(a: AccountId, to: AccountId, amount: nat, t: nat, name: string, now: int, fault: Fault)
      returns (ok: bool)
      requires Valid()
      modifies this
      ensures Valid() && ok == fault.NoFault?
      ensures State() == KeysAdded(old(State()), a, to, Member(name, amount), t, now, fault)
      ensures volumes == if fault.AtVolume? then old(volumes)
                         else old(volumes)[a := old(SetOf(a))[Member(name, amount) := t]]
      ensures volumeExpiry == if fault.AtVolume? then old(volumeExpiry) else old(volumeExpiry)[a := now + 86_400_000]
      ensures senders == if fault.AtVolume? || fault.AtSenders? then old(senders)
                         else old(senders)[to := (if to in old(senders) then old(senders)[to] else {}) + {a}]
      ensures sendersExpiry == if fault.AtVolume? || fault.AtSenders? then old(sendersExpiry)
                               else old(sendersExpiry)[to := now + 86_400_000]
      ensures active == if fault.NoFault? then old(active)[a := now + 5_184_000_000] else old(active)
    {
      hide Member, Sane;
      if fault.AtVolume? {
        return false;
      }
      AddMember(a, Member(name, amount), t, now);
      if fault.AtSenders? {
        return false;
      }
      AddSender(a, to, now);
      if fault.AtActive? {
        return false;
      }
      MarkActive(a, now);
      ok := true;
    }

    method AddMember(a: AccountId, member: string, t: nat, now: int)
      requires Valid()
      modifies this
      ensures Valid() && State() == KeysWithMember(old(State()), a, member, t, now)
    {
      var set24h := if a in volumes then volumes[a] else map[];
      set24h := set24h[member := t];
      assert member in set24h;
      volumes := volumes[a := set24h];
      volumeExpiry := volumeExpiry[a := now + DAY];
    }

    method AddSender(a: AccountId, to: AccountId, now: int)
      requires Valid()
      modifies this
      ensures Valid() && State() == KeysWithSender(old(State()), a, to, now)
    {
      var known := if to in senders then senders[to] else {};
      senders := senders[to := known + {a}];
      sendersExpiry := sendersExpiry[to := now + DAY];
    }

    method MarkActive(a: AccountId, now: int)
      requires Valid()
      modifies this
      ensures Valid() && State() == KeysActive(old(State()), a, now)
    {
      active := active[a := now + 2 * THIRTY_DAYS];
    }

    // Redis drops a key once its expiry has come.
    method DropDueVolume(a: AccountId, now: int)
      requires Valid()
      modifies this
      ensures Valid()
      ensures State() == if old(a in volumes && volumeExpiry[a] <= now)
                         then KeysWithoutVolume(old(State()), a)
                         else old(State())
    {
      if a in volumes && volumeExpiry[a] <= now {
        volumes, volumeExpiry := volumes - {a}, volumeExpiry - {a};
      }
    }

    method DropDueSenders(r: AccountId, now: int)
      requires Valid()
      modifies this
      ensures Valid()
      ensures State() == if old(r in senders && sendersExpiry[r] <= now)
                         then KeysWithoutSenders(old(State()), r)
                         else old(State())
    {
      if r in senders && sendersExpiry[r] <= now {
        senders, sendersExpiry := senders - {r}, sendersExpiry - {r};
      }
    }
  }

  // --- The methods against the sliding window ------------------------------------

  // The text set left by a read stands for the window left by a read, with the same metrics.
  lemma ReadRefines(w: Window, names: seq<string>, t: nat, answer: nat)
    requires |names| == |w.live| && GoodNames(names)
    ensures var z, r := Encode(w, names), Read(w, t, answer);
      && (z == map[] <==> !w.Exists())
      && Yields(z, t, Some(answer), r.volume, r.count)
      && var names' := if w.Exists() then KeptNames(w.live, names, t - DAY) else [];
      && |names'| == |r.window.live| && GoodNames(names')
      && Left(z, t, Some(answer)) == Encode(r.window, names')
  {
    EncodeSums(w, names);
    if w.Exists() {
      assert |Encode(w, names)| > 0;
      EncodeTrim(w, names, t - DAY);
      KeptNamesFacts(w.live, names, t - DAY);
      EncodeSums(w.Trim(t - DAY), KeptNames(w.live, names, t - DAY));
    }
  }

  // An added member stands for the added transaction.
  lemma AddRefines(w: Window, names: seq<string>, tx: Tx, name: string)
    requires |names| == |w.live| && GoodNames(names + [name])
    ensures Encode(w.Add(tx), names + [name]) == Encode(w, names)[Member(name, tx.amount) := tx.createdAt]
    ensures Member(name, tx.amount) !in Encode(w, names)
  {
    EncodeAdd(w, names, tx, name);
    NewMember(w, names, name, tx.amount);
  }
}
