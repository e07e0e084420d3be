/** The transaction history table: rows keyed by account, kind, instant and transaction id,
    and the window queries the service asks of it. */
module History {
  import opened Domain
  import opened Sums

  datatype HKey = HKey(from: AccountId, isP2p: bool, createdAt: nat, id: nat)
  datatype HRow = HRow(to: AccountId, amount: nat, currency: string, mccCode: string)

  type Table = map<HKey, HRow>

  function KeyOf(tx: Tx): HKey { HKey(tx.from, tx.isP2p, tx.createdAt, tx.id) }

  function RowOf(tx: Tx): HRow { HRow(tx.to, tx.amount, tx.currency, tx.mccCode) }

  // The amounts of the account's rows dated in the closed interval from `lo` to `hi`.
  function Selected(h: Table, a: AccountId, lo: int, hi: int): map<HKey, nat> {
    map k | k in h && k.from == a && lo <= k.createdAt <= hi :: h[k].amount
  }

  function SelectedKind(h: Table, a: AccountId, lo: int, hi: int, p2p: bool): map<HKey, nat> {
    map k | k in h && k.from == a && lo <= k.createdAt <= hi && k.isP2p == p2p :: h[k].amount
  }

  ghost function SumAmount(h: Table, a: AccountId, lo: int, hi: int): nat { MapSum(Selected(h, a, lo, hi)) }

  function CountInWindow(h: Table, a: AccountId, lo: int, hi: int): nat { |Selected(h, a, lo, hi)| }

  // --- Grouped statistics -------------------------------------------------

  datatype Stat = Stat(isP2p: Option<bool>, txCount: Option<nat>, totalAmount: Option<nat>)

  ghost function Group(h: Table, a: AccountId, lo: int, hi: int, p2p: bool): seq<Stat> {
    var rows := SelectedKind(h, a, lo, hi, p2p);
    if rows == map[] then [] else [Stat(Some(p2p), Some(|rows|), Some(MapSum(rows)))]
  }

  // One row per kind that occurs, the non-P2P group first.
  ghost function FetchGroupedStats(h: Table, a: AccountId, lo: int, hi: int): seq<Stat> {
    Group(h, a, lo, hi, false) + Group(h, a, lo, hi, true)
  }

  lemma KindsPartition(h: Table, a: AccountId, lo: int, hi: int)
    ensures SumAmount(h, a, lo, hi) ==
            MapSum(SelectedKind(h, a, lo, hi, false)) + MapSum(SelectedKind(h, a, lo, hi, true))
    ensures CountInWindow(h, a, lo, hi) ==
            |SelectedKind(h, a, lo, hi, false)| + |SelectedKind(h, a, lo, hi, true)|
  {
    var f, t := SelectedKind(h, a, lo, hi, false), SelectedKind(h, a, lo, hi, true);
    assert Selected(h, a, lo, hi) == f + t;
    MapSumUnion(f, t);
    assert (f + t).Keys == f.Keys + t.Keys;
    assert |f.Keys| == |f| && |t.Keys| == |t| && |(f + t).Keys| == |f + t|;
  }

  // --- Table sums against transaction lists --------------------------------

  ghost predicate DistinctKeys(q: seq<Tx>) {
    forall i, j | 0 <= i < j < |q| :: KeyOf(q[i]) != KeyOf(q[j])
  }

  lemma {:induction false} ListAtMostTable(q: seq<Tx>, m: map<HKey, nat>, lo: int, hi: int)
    requires DistinctKeys(q)
    requires forall u | u in q && lo <= u.createdAt <= hi :: KeyOf(u) in m && m[KeyOf(u)] == u.amount
    ensures Within(q, lo, hi) <= MapSum(m)
  {
    if q != [] {
      var u, rest := q[|q| - 1], q[..|q| - 1];
      assert u in q && forall v | v in rest :: v in q;
      if lo <= u.createdAt <= hi {
        forall v | v in rest && lo <= v.createdAt <= hi ensures KeyOf(v) != KeyOf(u) {
          var i :| 0 <= i < |rest| && rest[i] == v;
          assert q[i] == v;
        }
        ListAtMostTable(rest, m - {KeyOf(u)}, lo, hi);
        MapSumRemove(m, KeyOf(u));
      } else {
        ListAtMostTable(rest, m, lo, hi);
      }
    }
  }

  ghost predicate BackedBy(m: map<HKey, nat>, q: seq<Tx>) {
    forall k | k in m :: exists u :: u in q && KeyOf(u) == k && u.amount == m[k]
  }

  lemma {:induction false} TableAtMostList(m: map<HKey, nat>, q: seq<Tx>, lo: int, hi: int)
    requires BackedBy(m, q)
    requires forall k | k in m :: lo <= k.createdAt <= hi
    ensures MapSum(m) <= Within(q, lo, hi)
  {
    if q == [] {
      assert m == map[];
    } else {
      var u, rest := q[|q| - 1], q[..|q| - 1];
      assert q == rest + [u];
      if KeyOf(u) in m && m[KeyOf(u)] == u.amount {
        TableAtMostList(m - {KeyOf(u)}, rest, lo, hi);
        MapSumRemove(m, KeyOf(u));
      } else {
        TableAtMostList(m, rest, lo, hi);
      }
    }
  }

  // What links an account's committed transactions to the table: every row of the account
  // comes from one of them, and a row that shares a transaction's key carries its amount.
  ghost predicate Backed(h: Table, a: AccountId, q: seq<Tx>) {
    && (forall k | k in h && k.from == a :: exists u :: u in q && KeyOf(u) == k)
    && (forall u | u in q && KeyOf(u) in h :: h[KeyOf(u)].amount == u.amount)
  }

  // The table never counts a window higher than the committed log does.
  lemma SumAtMostCommitted(h: Table, a: AccountId, q: seq<Tx>, lo: int, hi: int)
    requires Backed(h, a, q)
    ensures SumAmount(h, a, lo, hi) <= Within(q, lo, hi)
  {
    TableAtMostList(Selected(h, a, lo, hi), q, lo, hi);
  }
}
