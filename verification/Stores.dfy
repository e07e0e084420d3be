/** The database with its outbox, the cleaner's deletion, and the writer of the history tables, as code
    that updates tables in place. */
module Stores {
  import opened Domain
  import opened History
  import opened Pipeline

  datatype SaveFault = NoSaveFault | RowFails | EventFails | CommitFails

  class Database {
    var rows: map<nat, TxRow>
    var outbox: map<nat, OutboxRow>
    ghost var wal: seq<WalRecord>

    constructor ()
      ensures rows == map[] && outbox == map[] && wal == []
    {
      rows, outbox, wal := map[], map[], [];
    }

    // One transaction: both rows are written and logged, or neither is.
    method Save(event: Event, eventId: nat, at: int, fault: SaveFault) returns (ok: bool)
      modifies this
      ensures ok <==> fault.NoSaveFault?
      ensures !ok ==> rows == old(rows) && outbox == old(outbox) && wal == old(wal)
      ensures ok ==>
        && rows == old(rows)[event.tx.id := RowFor(old(rows), event)]
        && outbox == old(outbox)[eventId := OutboxRow(event, at)]
        && wal == old(wal) + [RowUpsert(RowFor(old(rows), event)), OutboxInsert(eventId, event)]
    {
      var rowsBefore, outboxBefore := rows, outbox;
      if fault.RowFails? {
        return false;
      }
      var row := RowFor(rows, event);
      rows := rows[event.tx.id := row];
      if fault.EventFails? {
        rows := rowsBefore;
        return false;
      }
      outbox := outbox[eventId := OutboxRow(event, at)];
      if fault.CommitFails? {
        rows, outbox := rowsBefore, outboxBefore;
        return false;
      }
      wal := wal + [RowUpsert(row), OutboxInsert(eventId, event)];
      ok := true;
    }

    // Skipped when the replication slot is missing or 10 MB or more behind. Otherwise exactly the rows created
    // within the last hour stay.
    method CleanupProcessedEvents(lag: Option<nat>, now: int) returns (deleted: nat)
      modifies this
      ensures rows == old(rows)
      ensures lag == None || lag.value >= 10_485_760 ==>
        outbox == old(outbox) && wal == old(wal) && deleted == 0
      ensures lag != None && lag.value < 10_485_760 ==>
        && (forall id :: id in outbox <==> id in old(outbox) && now - 3_600_000 <= old(outbox)[id].createdAt)
        && (forall id | id in outbox :: outbox[id] == old(outbox)[id])
        && deleted == |old(outbox).Keys - outbox.Keys|
        && old(wal) <= wal && |wal| == |old(wal)| + deleted && Events(wal) == Events(old(wal))
        && (forall id :: OutboxDelete(id) in wal[|old(wal)|..] <==> id in old(outbox) && id !in outbox)
    {
      hide Expired, DeleteRecords, Events;
      if lag.None? {
        return 0;
      }
      if lag.value >= MAX_LAG {
        return 0;
      }
      var ids := Expired(outbox, now);
      ExpiredFacts(outbox, wal, now);
      outbox := outbox - ids;
      wal := wal + DeleteRecords(ids);
      deleted := |ids|;
    }
  }

  // The audit table after the first `n` rows of the event.
  function AuditUpTo(audit: map<AKey, ARow>, e: Event, n: nat): map<AKey, ARow>
    requires n <= |e.results|
  {
    if n == 0 then audit else AuditUpTo(audit, e, n - 1)[AKeyOf(e, n - 1) := ARowOf(e, n - 1)]
  }

  // How many audit rows a delivery of so many writes stores.
  function AuditWrites(e: Event, writes: nat): (n: nat)
    ensures n <= |e.results|
  {
    if writes == 0 then 0 else if writes - 1 < |e.results| then writes - 1 else |e.results|
  }

  predicate LastUnderItsCode(e: Event, i: nat, n: nat)
    requires i < n <= |e.results|
  {
    forall j | i < j < n :: e.results[j].ruleId != e.results[i].ruleId
  }

  lemma {:induction false} AuditRowRecords(audit: map<AKey, ARow>, e: Event, n: nat, i: nat)
    requires i < n <= |e.results| && LastUnderItsCode(e, i, n)
    ensures Records(AuditUpTo(audit, e, n), e, e.results[i])
  {
    if i < n - 1 {
      AuditRowRecords(audit, e, n - 1, i);
    }
  }

  lemma AuditRecords(audit: map<AKey, ARow>, e: Event, n: nat)
    requires n <= |e.results|
    ensures forall i | 0 <= i < n && LastUnderItsCode(e, i, n) :: Records(AuditUpTo(audit, e, n), e, e.results[i])
  {
    forall i | 0 <= i < n && LastUnderItsCode(e, i, n) ensures Records(AuditUpTo(audit, e, n), e, e.results[i]) {
      AuditRowRecords(audit, e, n, i);
    }
  }

  class HistoryWriter {
    var history: Table
    var audit: map<AKey, ARow>

    constructor ()
      ensures history == map[] && audit == map[]
    {
      history, audit := map[], map[];
    }

    // `writes` is how many writes the store accepts before it throws. The listener rethrows, so the
    // record is delivered again; an unreadable payload is rethrown before any write.
    method OnTransactionEvaluated(payload: Option<Event>, writes: nat) returns (rethrown: bool)
      modifies this
      ensures payload.None? ==> rethrown && history == old(history) && audit == old(audit)
      ensures payload.Some? ==>
        var e := payload.value;
        && (rethrown <==> writes < 1 + |e.results|)
        && history == (if writes == 0 then old(history) else old(history)[KeyOf(e.tx) := RowOf(e.tx)])
        && audit == AuditUpTo(old(audit), e, AuditWrites(e, writes))
        && (writes > 0 ==> Holds(history, e.tx))
        && (forall i | 0 <= i < AuditWrites(e, writes) && LastUnderItsCode(e, i, AuditWrites(e, writes)) ::
              Records(audit, e, e.results[i]))
    {
      if payload.None? {
        return true;
      }
      var e := payload.value;
      if writes == 0 {
        return true;
      }
      history := history[KeyOf(e.tx) := RowOf(e.tx)];
      for i := 0 to |e.results|
        invariant i < writes
        invariant audit == AuditUpTo(old(audit), e, i)
        invariant history == old(history)[KeyOf(e.tx) := RowOf(e.tx)]
      {
        if i + 1 == writes {
          AuditRecords(old(audit), e, AuditWrites(e, writes));
          return true;
        }
        audit := audit[AKeyOf(e, i) := ARowOf(e, i)];
      }
      AuditRecords(old(audit), e, AuditWrites(e, writes));
      rethrown := false;
    }
  }

  // --- The listener against the pipeline's consumer -----------------------------------

  ghost function Projects(p: Pipe, n: nat): Pipe {
    if n == 0 then p else OnProject(Projects(p, n - 1))
  }

  // n consumer steps leave the tables as a delivery that fails after n writes does; the offset moves
  // only by one step more than the last write.
  lemma {:induction false} DeliveryIsConsumerSteps(p: Pipe, n: nat)
    requires p.offset < |p.topic| && p.stage == 0 && n <= 1 + |p.topic[p.offset].results|
    ensures var e, q := p.topic[p.offset], Projects(p, n);
      && q.offset == p.offset && q.stage == n && q.topic == p.topic
      && q.history == (if n == 0 then p.history else p.history[KeyOf(e.tx) := RowOf(e.tx)])
      && q.audit == AuditUpTo(p.audit, e, if n == 0 then 0 else n - 1)
      && (n == 1 + |e.results| ==> OnProject(q).offset == p.offset + 1 && OnProject(q).stage == 0)
  {
    if n > 0 {
      DeliveryIsConsumerSteps(p, n - 1);
    }
  }
}
