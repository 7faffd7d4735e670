/** `PostgresDomainStateRepository`: whole-state reads and replacements in transactions. */
module Repository {
  import opened Texts
  import opened FleetState
  import opened Columns
  import opened Outbox
  import opened OrderedRows
  import opened Database

  /** The tables hold exactly this state, or are still empty. */
  ghost predicate Mirrors(t: Tables, s: DomainState) {
    && t.robots == s.robots && t.missions == s.missions && t.commands == s.commands
    && t.idempotencyKeys == s.idempotencyRecords
    && t.domainEvents == s.domainEvents && t.auditEvents == s.auditEvents
    && (t.bookmarks == Some(BookmarksOf(s)) || (t.bookmarks == None && s == INITIAL_STATE))
  }

  /** The replaced tables hold the state as it was written. */
  lemma ReplacedMirrors(t: Tables, s: DomainState, records: seq<OutboxRecord>)
    requires KeyedById(s)
    ensures Mirrors(Replaced(t, s, records), Written(s)) && KeyedById(Written(s))
    ensures Replaced(t, s, records) == Replaced(t, Written(s), records)
  {
    WrittenTwice(s);
    hide Utf8Ids, WithMissions, WithCommands, DetachedAcks, TelemetryWithMissions, TelemetryWithRobots;
    hide DetachedTelemetry, WithRobots, DetachedSessions, Enqueued;
  }

  lemma WrittenTwice(s: DomainState)
    ensures Written(Written(s)) == Written(s)
  {
    WrittenExact(s);
  }

  lemma WrittenLogs(s: DomainState, n: DomainState, stored: Encoding, memory: Encoding, digest: Digest)
    ensures NewRecords(s, Written(n), stored, memory, digest) == NewRecords(s, n, stored, memory, digest)
  {
    hide PersistedKeys, NewDomain, NewAudit;
  }

  function DomainRows(events: seq<DomainEvent>): (rows: seq<Row<DomainEvent>>)
    ensures |rows| == |events| && Ids(rows) == DomainIds(events) && Values(rows) == events
  {
    seq(|events|, i requires 0 <= i < |events| => Row(events[i].eventId, events[i]))
  }

  function AuditRows(events: seq<AuditEvent>): (rows: seq<Row<AuditEvent>>)
    ensures |rows| == |events| && Ids(rows) == AuditIds(events) && Values(rows) == events
  {
    seq(|events|, i requires 0 <= i < |events| => Row(events[i].auditEventId, events[i]))
  }

  /** The rows of a query; its ORDER BY clause decides the order, which nothing below relies on. */
  method Select<T(==)>(rows: seq<Row<T>>) returns (r: seq<Row<T>>)
    ensures multiset(r) == multiset(rows)
  {
    r := rows;
  }

  class PostgresRepository {
    var tables: Tables
    ghost var state: DomainState

    ghost predicate Valid()
      reads this
    {
      Constraints(tables) && KeyedById(state) && Mirrors(tables, state)
    }

    constructor ()
      ensures Valid() && state == INITIAL_STATE && tables == EMPTY_TABLES
    {
      tables := EMPTY_TABLES;
      state := INITIAL_STATE;
    }

    /**
     Reads back exactly the state that was stored last, unless it holds a number that is not safe; no stored log
     has a missing row.
     */
    method ReadDomainState() returns (s: Option<DomainState>)
      requires Valid()
      ensures s == if Readable(state) then Some(state) else None
    {
      var bookmarks := tables.bookmarks.Or(BookmarksOf(INITIAL_STATE));
      if !CountersReadable(bookmarks.nextSequence) || !RobotsReadable(tables.robots)
         || !MissionsReadable(tables.missions) {
        return None;
      }
      var domainRows := Select(DomainRows(tables.domainEvents));
      var domainEvents := OrderRows(domainRows, bookmarks.domainEventIds);
      var auditRows := Select(AuditRows(tables.auditEvents));
      var auditEvents := OrderRows(auditRows, bookmarks.auditEventIds);
      assert bookmarks == BookmarksOf(state);
      LogsReadBack(tables, domainRows, auditRows);
      if domainEvents.MissingRow? || auditEvents.MissingRow? {
        return None;
      }
      s := Some(DomainState(
        tables.missions, tables.robots, tables.commands, tables.idempotencyKeys, bookmarks.processedEventIds,
        bookmarks.processedAckIds, bookmarks.processedSessionIds, bookmarks.nextSequence, auditEvents.values,
        domainEvents.values));
    }

    /**
     Runs the reducer on the stored state and replaces the tables in one transaction. It commits exactly when the
     stored state can be read and the schema accepts the new one, with the records of the appended events queued;
     otherwise nothing changes.
     */
    method Update(mutator: DomainState -> DomainState, stored: Encoding, memory: Encoding, digest: Digest)
      returns (status: Status)
      requires Valid() && KeyedById(mutator(state)) && IsDigest(digest)
      modifies this
      ensures Valid()
      ensures status.Done? <==> Readable(old(state)) && Storable(mutator(old(state)))
      ensures status.Done? ==>
                && state == Written(mutator(old(state)))
                && tables == Replaced(old(tables), state, NewRecords(old(state), state, stored, memory, digest))
      ensures status.Violated? ==> state == old(state) && tables == old(tables)
    {
      hide Constraints, RowsFit, MissionsRefer, CommandsStorable, RecordsRefer, NewDomain, NewAudit, Readable, IsDigest;
      hide EventIdsUnique, AuditIdsUnique, Mirrors, Replaced, Written, KeyedById;
      var client := new Client(tables);
      var current := ReadDomainState();
      if current.None? {
        return Violated;
      }
      var next := mutator(current.value);
      var records := SelectNewOutboxRecords(current.value, next, stored, memory, digest);
      if RowsFit(next) {
        NewRecordsFit(current.value, next, stored, memory, digest);
      }
      status := client.ReplaceDomainState(next, records);
      if status.Done? {
        WrittenLogs(current.value, next, stored, memory, digest);
        ReplacedMirrors(old(tables), next, records);
        tables := client.tables;
        state := Written(next);
      }
    }

    /** As an update that ignores the stored state, except for what it queues. */
    method Write(s: DomainState, stored: Encoding, memory: Encoding, digest: Digest) returns (status: Status)
      requires Valid() && KeyedById(s) && IsDigest(digest)
      modifies this
      ensures Valid()
      ensures status.Done? <==> Readable(old(state)) && Storable(s)
      ensures status.Done? ==>
                && state == Written(s)
                && tables == Replaced(old(tables), state, NewRecords(old(state), state, stored, memory, digest))
      ensures status.Violated? ==> state == old(state) && tables == old(tables)
    {
      hide IsDigest, Storable, Readable, Constraints;
      status := Update(_ => s, stored, memory, digest);
    }

    /** Replaces the state without reading the old one and without queueing anything. */
    method Reset(s: DomainState) returns (status: Status)
      requires Valid() && KeyedById(s)
      modifies this
      ensures Valid()
      ensures status.Done? <==> Storable(s)
      ensures status.Done? ==> state == Written(s) && tables == Replaced(old(tables), state, [])
      ensures status.Violated? ==> state == old(state) && tables == old(tables)
    {
      hide Constraints, Storable, Mirrors, Replaced, Written, KeyedById;
      var client := new Client(tables);
      status := client.ReplaceDomainState(s, []);
      if status.Done? {
        ReplacedMirrors(old(tables), s, []);
        tables := client.tables;
        state := Written(s);
      }
    }
  }

  /** The contract baseline of the durable repository. */
  class InMemoryDomainStateRepository {
    var state: DomainState

    constructor (initial: DomainState)
      ensures state == initial
    {
      state := initial;
    }

    method Update(mutator: DomainState -> DomainState)
      modifies this
      ensures state == mutator(old(state))
    {
      state := mutator(state);
    }
  }

  /**
   The durable repository beside its baseline: after an update that the database takes they agree exactly when
   no processed id has an unpaired surrogate, and after one that it refuses exactly when the state is the old one.
   */
  method UpdateBoth(memory: InMemoryDomainStateRepository, durable: PostgresRepository,
                    mutator: DomainState -> DomainState, stored: Encoding, inMemory: Encoding, digest: Digest)
    returns (status: Status)
    requires durable.Valid() && memory.state == durable.state && KeyedById(mutator(memory.state))
    requires IsDigest(digest)
    modifies memory, durable
    ensures durable.Valid() && memory.state == mutator(old(memory.state))
    ensures durable.state == memory.state <==>
              if Readable(old(memory.state)) && Storable(memory.state) then Written(memory.state) == memory.state
              else memory.state == old(memory.state)
  {
    hide Storable, KeyedById, Readable, Written, IsDigest;
    memory.Update(mutator);
    status := durable.Update(mutator, stored, inMemory, digest);
  }

  lemma LogsReadBack(t: Tables, domainRows: seq<Row<DomainEvent>>, auditRows: seq<Row<AuditEvent>>)
    requires Constraints(t)
    requires multiset(domainRows) == multiset(DomainRows(t.domainEvents))
    requires multiset(auditRows) == multiset(AuditRows(t.auditEvents))
    ensures var ids := DomainIds(t.domainEvents);
            OrderedRows.Distinct(ids) && Present(domainRows, ids) && Values(Restored(domainRows, ids)) == t.domainEvents
    ensures var ids := AuditIds(t.auditEvents);
            OrderedRows.Distinct(ids) && Present(auditRows, ids) && Values(Restored(auditRows, ids)) == t.auditEvents
  {
    var x, y := DomainRows(t.domainEvents), AuditRows(t.auditEvents);
    assert DistinctIds(x) by {
      assert forall i | 0 <= i < |x| :: x[i].id == Ids(x)[i];
    }
    assert DistinctIds(y) by {
      assert forall i | 0 <= i < |y| :: y[i].id == Ids(y)[i];
    }
    StoredLogRoundTrip(x, domainRows);
    StoredLogRoundTrip(y, auditRows);
  }
}
