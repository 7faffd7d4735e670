/** `InMemoryIdempotencyStore`: the bounded cache of responses to POST /missions. */
module IdempotencyCache {
  import opened Texts

  type Time = int

  /** A cached record; `serial` is its identity as an object, never reused. */
  datatype CacheRecord = CacheRecord(
    key: Id, bodySignature: Text, createdAtMs: Time, expiresAtMs: Time, serial: nat)

  datatype Options = Options(ttlMs: int, maxEntries: nat)

  datatype Decision = Reserved(record: CacheRecord) | Replay(record: CacheRecord) | Conflict

  /******* Specification *******/

  /** At most one record per key, in insertion order, with increasing serials. */
  predicate Distinct(records: seq<CacheRecord>) {
    forall i, j | 0 <= i < j < |records| :: records[i].key != records[j].key && records[i].serial < records[j].serial
  }

  predicate SerialsBelow(records: seq<CacheRecord>, created: nat) {
    forall r | r in records :: r.serial < created
  }

  function Unexpired(records: seq<CacheRecord>, nowMs: Time): (kept: seq<CacheRecord>)
    ensures |kept| <= |records|
    ensures forall r :: r in kept <==> r in records && nowMs < r.expiresAtMs
  {
    if records == [] then []
    else
      var last := records[|records| - 1];
      assert records == records[..|records| - 1] + [last];
      Unexpired(records[..|records| - 1], nowMs) + if last.expiresAtMs <= nowMs then [] else [last]
  }

  function Find(records: seq<CacheRecord>, key: Id): (found: Option<CacheRecord>)
    ensures found.Some? ==> found.value in records && found.value.key == key
    ensures found.None? ==> forall r | r in records :: r.key != key
  {
    if records == [] then None
    else if records[0].key == key then Some(records[0])
    else Find(records[1..], key)
  }

  /** The first of the oldest records whose key is not protected. */
  predicate IsOldestEvictable(records: seq<CacheRecord>, protectedKey: Id, i: nat) {
    && i < |records| && records[i].key != protectedKey
    && (forall j | 0 <= j < |records| && records[j].key != protectedKey ::
          records[i].createdAtMs <= records[j].createdAtMs)
    && (forall j | 0 <= j < i && records[j].key != protectedKey :: records[i].createdAtMs < records[j].createdAtMs)
  }

  function Without(records: seq<CacheRecord>, i: nat): seq<CacheRecord>
    requires i < |records|
  {
    records[..i] + records[i + 1..]
  }

  predicate Older(a: CacheRecord, b: CacheRecord) {
    a.createdAtMs < b.createdAtMs || (a.createdAtMs == b.createdAtMs && a.serial < b.serial)
  }

  /** What eviction leaves: the protected record, and the youngest others that fit, in their order. */
  ghost predicate Evicts(before: seq<CacheRecord>, after: seq<CacheRecord>, protectedKey: Id, maxEntries: nat) {
    && Distinct(after)
    && (forall r | r in after :: r in before)
    && (forall r | r in before && r.key == protectedKey :: r in after)
    && (forall e, k | e in before && e !in after && k in after && k.key != protectedKey :: Older(e, k))
    && (if |before| <= maxEntries then after == before else |after| == maxEntries)
  }

  /** Everything a reservation attempt decides and leaves behind. */
  ghost predicate Reserves(before: seq<CacheRecord>, created: nat, key: Id, bodySignature: Text, nowMs: Time,
                           options: Options, d: Decision, after: seq<CacheRecord>)
  {
    var live := Unexpired(before, nowMs);
    match Find(live, key)
    case Some(existing) =>
      && d == (if existing.bodySignature == bodySignature then Replay(existing) else Conflict)
      && after == live
    case None =>
      && d == Reserved(CacheRecord(key, bodySignature, nowMs, nowMs + options.ttlMs, created))
      && Evicts(live + [d.record], after, key, options.maxEntries)
  }

  ghost predicate RollsBack(before: seq<CacheRecord>, record: CacheRecord, settled: bool, after: seq<CacheRecord>) {
    && (settled ==> after == before)
    && Distinct(after)
    && (forall r :: r in after <==> r in before && (settled || r != record))
  }

  datatype Response = Pending | Resolved(statusCode: int, body: Text) | Rejected(error: Text)

  /** The promise a reservation hands out, and whether it has been settled. */
  class Reservation {
    const record: CacheRecord
    var settled: bool
    var response: Response

    constructor (record: CacheRecord)
      ensures this.record == record && !settled && response == Pending
    {
      this.record := record;
      settled := false;
      response := Pending;
    }

    method Settle(r: Response)
      modifies this
      ensures settled && response == r
    {
      settled := true;
      response := r;
    }
  }

  class InMemoryIdempotencyStore {
    const options: Options
    var records: seq<CacheRecord>
    var created: nat

    predicate Valid()
      reads this
    {
      Distinct(records) && SerialsBelow(records, created)
    }

    constructor (options: Options)
      ensures Valid() && records == [] && this.options == options
    {
      this.options := options;
      records := [];
      created := 0;
    }

    method PruneExpired(nowMs: Time)
      requires Valid()
      modifies this`records
      ensures Valid() && records == Unexpired(old(records), nowMs)
    {
      var all := records;
      var kept: seq<CacheRecord> := [];
      for i := 0 to |all|
        invariant kept == Unexpired(all[..i], nowMs)
      {
        assert all[..i + 1][..i] == all[..i];
        if nowMs < all[i].expiresAtMs {
          kept := kept + [all[i]];
        }
      }
      assert all[..|all|] == all;
      UnexpiredDistinct(all, nowMs);
      records := kept;
    }

    method OldestEvictableKey(protectedKey: Id) returns (oldest: Option<nat>)
      ensures oldest.Some? ==> IsOldestEvictable(records, protectedKey, oldest.value)
      ensures oldest.None? ==> forall r | r in records :: r.key == protectedKey
    {
      oldest := None;
      for i := 0 to |records|
        invariant oldest.None? ==> forall j | 0 <= j < i :: records[j].key == protectedKey
        invariant oldest.Some? ==> IsOldestEvictable(records[..i], protectedKey, oldest.value)
      {
        assert records[..i + 1] == records[..i] + [records[i]];
        if records[i].key != protectedKey {
          if oldest.None? || records[i].createdAtMs < records[oldest.value].createdAtMs {
            oldest := Some(i);
          }
        }
      }
      assert records[..|records|] == records;
    }

    /** Terminates: each round removes a record, and there is one to remove besides the protected key. */
    method EnforceMaxEntries(protectedKey: Id)
      requires Valid() && 1 <= options.maxEntries && exists r :: r in records && r.key == protectedKey
      modifies this`records
      ensures Valid() && Evicts(old(records), records, protectedKey, options.maxEntries)
    {
      while options.maxEntries < |records|
        invariant Valid()
        invariant forall r | r in records :: r in old(records)
        invariant forall r | r in old(records) && r.key == protectedKey :: r in records
        invariant forall e, k | e in old(records) && e !in records && k in records && k.key != protectedKey ::
                    Older(e, k)
        invariant |records| <= |old(records)|
        invariant |old(records)| <= options.maxEntries ==> records == old(records)
        invariant options.maxEntries < |old(records)| ==> options.maxEntries <= |records|
        decreases |records|
      {
        assert records[0] in records && records[1] in records && records[0].key != records[1].key;
        var oldest := OldestEvictableKey(protectedKey);
        if oldest.None? {
          return;
        }
        ghost var before := records;
        OldestIsOlder(records, protectedKey, oldest.value);
        records := Without(records, oldest.value);
        WithoutKeeps(before, oldest.value);
      }
    }

    /** The existing decision for the key, or a new record that is stored, protected and within bounds. */
    method Reserve(key: Id, bodySignature: Text, nowMs: Time) returns (d: Decision, reservation: Reservation?)
      requires Valid() && 1 <= options.maxEntries
      modifies this
      ensures Valid()
      ensures Reserves(old(records), old(created), key, bodySignature, nowMs, options, d, records)
      ensures created == old(created) + if d.Reserved? then 1 else 0
      ensures if d.Reserved? then
                reservation != null && fresh(reservation) && reservation.record == d.record && !reservation.settled
                && reservation.response == Pending
              else reservation == null
    {
      PruneExpired(nowMs);
      var existing := Find(records, key);
      if existing.Some? {
        return if existing.value.bodySignature == bodySignature then Replay(existing.value) else Conflict, null;
      }
      var record := CacheRecord(key, bodySignature, nowMs, nowMs + options.ttlMs, created);
      created := created + 1;
      records := records + [record];
      assert records[|records| - 1] == record;
      EnforceMaxEntries(key);
      d := Reserved(record);
      reservation := new Reservation(record);
    }

    /** Only the first of commit and rollback counts. */
    method Commit(reservation: Reservation, response: Response)
      modifies reservation
      ensures reservation.settled && records == old(records)
      ensures reservation.response == if old(reservation.settled) then old(reservation.response) else response
    {
      if !reservation.settled {
        reservation.Settle(response);
      }
    }

    /** Removes the reservation's own record, if it is still there; never another record for the same key. */
    method Rollback(reservation: Reservation, error: Text)
      requires Valid()
      modifies reservation, this`records
      ensures Valid() && reservation.settled
      ensures RollsBack(old(records), reservation.record, old(reservation.settled), records)
      ensures reservation.response == if old(reservation.settled) then old(reservation.response) else Rejected(error)
    {
      if !reservation.settled {
        reservation.Settle(Rejected(error));
        for i := 0 to |records|
          invariant records == old(records) && reservation.settled && reservation.response == Rejected(error)
          invariant forall j | 0 <= j < i :: records[j] != reservation.record
        {
          if records[i] == reservation.record {
            WithoutKeeps(records, i);
            records := Without(records, i);
            break;
          }
        }
      }
    }
  }

  lemma {:induction false} UnexpiredDistinct(records: seq<CacheRecord>, nowMs: Time)
    requires Distinct(records)
    ensures Distinct(Unexpired(records, nowMs))
  {
    if records != [] {
      UnexpiredDistinct(records[..|records| - 1], nowMs);
    }
  }

  lemma OldestIsOlder(records: seq<CacheRecord>, protectedKey: Id, i: nat)
    requires Distinct(records) && IsOldestEvictable(records, protectedKey, i)
    ensures forall r | r in records && r.key != protectedKey && r != records[i] :: Older(records[i], r)
  {
  }

  lemma WithoutKeeps(records: seq<CacheRecord>, i: nat)
    requires Distinct(records) && i < |records|
    ensures var rest := Without(records, i);
            && Distinct(rest) && |rest| == |records| - 1
            && forall r :: r in rest <==> r in records && r != records[i]
  {
    var rest := Without(records, i);
    forall r | r in records && r != records[i] ensures r in rest {
      var j :| 0 <= j < |records| && records[j] == r;
      assert r == if j < i then rest[j] else rest[j - 1];
    }
  }

  /******* With a clock that does not run backwards *******/

  predicate InTimeOrder(records: seq<CacheRecord>) {
    forall i, j | 0 <= i < j < |records| :: records[i].createdAtMs <= records[j].createdAtMs
  }

  /** Then the evicted records are exactly the earliest inserted ones. */
  lemma EvictsEarliest(before: seq<CacheRecord>, after: seq<CacheRecord>, protectedKey: Id, maxEntries: nat)
    requires Distinct(before) && InTimeOrder(before) && 1 <= maxEntries
    requires before != [] && before[|before| - 1].key == protectedKey
    requires Evicts(before, after, protectedKey, maxEntries)
    ensures after == before[|before| - |after|..]
  {
    var m := |before| - 1;
    assert before[m] in before && before[m] in after;
    while 0 < m && before[m - 1] in after
      invariant 0 <= m < |before| && forall j | m <= j < |before| :: before[j] in after
    {
      m := m - 1;
    }
    forall i | 0 <= i < m ensures before[i] !in after {
      assert before[m - 1] in before && before[i].key != before[|before| - 1].key;
      assert !Older(before[m - 1], before[i]);
    }
    assert forall r | r in after :: r in before;
    hide InTimeOrder, Evicts;
    SameOrdered(after, before[m..]);
  }

  lemma LastIsYoungest(records: seq<CacheRecord>)
    requires Distinct(records) && records != []
    ensures var front, last := records[..|records| - 1], records[|records| - 1];
            && Distinct(front)
            && (forall r | r in front :: r.serial < last.serial)
            && (forall r :: r in records <==> r in front || r == last)
  {
    assert records == records[..|records| - 1] + [records[|records| - 1]];
  }

  /** A set of records has one insertion order. */
  lemma {:induction false} SameOrdered(a: seq<CacheRecord>, b: seq<CacheRecord>)
    requires Distinct(a) && Distinct(b) && forall r :: r in a <==> r in b
    ensures a == b
  {
    assert (a != [] ==> a[0] in a) && (b != [] ==> b[0] in b);
    if a != [] && b != [] {
      LastIsYoungest(a);
      LastIsYoungest(b);
      hide Distinct;
      var x, y := a[|a| - 1], b[|b| - 1];
      assert x in b && y in a;
      SameOrdered(a[..|a| - 1], b[..|b| - 1]);
      assert a == a[..|a| - 1] + [x] && b == b[..|b| - 1] + [y];
    }
  }

  /******* Reservations of one key are separated *******/

  datatype CacheEvent =
    | ReserveEvent(key: Id, bodySignature: Text, nowMs: Time, created: nat, decision: Decision)
    | RollbackEvent(record: CacheRecord, settled: bool)

  ghost predicate CacheStep(before: seq<CacheRecord>, e: CacheEvent, options: Options, after: seq<CacheRecord>) {
    match e
    case ReserveEvent(key, bodySignature, nowMs, created, decision) =>
      Reserves(before, created, key, bodySignature, nowMs, options, decision, after)
    case RollbackEvent(record, settled) => RollsBack(before, record, settled, after)
  }

  /** The cache before and after each of the events. */
  ghost predicate History(states: seq<seq<CacheRecord>>, events: seq<CacheEvent>, options: Options) {
    && |states| == |events| + 1
    && forall k | 0 <= k < |events| :: CacheStep(states[k], events[k], options, states[k + 1])
  }

  /** Why a record is gone: it expired, it made room for another key, or its own reservation was rolled back. */
  predicate GoneBecause(e: CacheEvent, x: CacheRecord, before: seq<CacheRecord>, options: Options) {
    match e
    case ReserveEvent(key, _, nowMs, _, decision) =>
      || x.expiresAtMs <= nowMs
      || (decision.Reserved? && key != x.key && options.maxEntries <= |Unexpired(before, nowMs)|)
    case RollbackEvent(record, settled) => record == x && !settled
  }

  lemma StepRemoves(before: seq<CacheRecord>, e: CacheEvent, options: Options, after: seq<CacheRecord>, x: CacheRecord)
    requires CacheStep(before, e, options, after) && Distinct(before) && x in before && x !in after
    ensures GoneBecause(e, x, before, options)
  {
    if e.ReserveEvent? && e.nowMs < x.expiresAtMs && e.decision.Reserved? {
      var live := Unexpired(before, e.nowMs);
      assert x in live && Find(live, e.key).None?;
      assert x in live + [e.decision.record];
    }
  }

  lemma {:induction false} RemovedSomewhere(states: seq<seq<CacheRecord>>, events: seq<CacheEvent>, options: Options,
                                            x: CacheRecord, i: nat, j: nat)
    requires History(states, events, options) && i <= j < |states|
    requires forall k | 0 <= k < |states| :: Distinct(states[k])
    requires x in states[i] && x !in states[j]
    ensures exists k | i <= k < j :: GoneBecause(events[k], x, states[k], options)
    decreases j - i
  {
    if x in states[i + 1] {
      RemovedSomewhere(states, events, options, x, i + 1, j);
    } else {
      assert CacheStep(states[i], events[i], options, states[i + 1]);
      StepRemoves(states[i], events[i], options, states[i + 1], x);
    }
  }

  /**
   Between two RESERVED answers for the same key, or at the second of them, the first record expired, was
   evicted for another key, or was rolled back by its own reservation.
   */
  lemma ReservedTwice(states: seq<seq<CacheRecord>>, events: seq<CacheEvent>, options: Options, i: nat, j: nat)
    requires History(states, events, options) && forall k | 0 <= k < |states| :: Distinct(states[k])
    requires i < j < |events| && events[i].ReserveEvent? && events[j].ReserveEvent?
    requires events[i].key == events[j].key && events[i].decision.Reserved? && events[j].decision.Reserved?
    ensures exists k | i < k <= j :: GoneBecause(events[k], events[i].decision.record, states[k], options)
  {
    var x := events[i].decision.record;
    assert CacheStep(states[i], events[i], options, states[i + 1]);
    assert CacheStep(states[j], events[j], options, states[j + 1]);
    var live := Unexpired(states[i], events[i].nowMs) + [x];
    assert live[|live| - 1] == x;
    assert x in states[i + 1];
    if x in states[j] {
      assert x !in Unexpired(states[j], events[j].nowMs);
      assert GoneBecause(events[j], x, states[j], options);
    } else {
      RemovedSomewhere(states, events, options, x, i + 1, j);
    }
  }

  /** After a reservation that creates a record the cache is within bounds, free of expired records, and holds it. */
  lemma ReservedWithinBounds(before: seq<CacheRecord>, created: nat, key: Id, bodySignature: Text, nowMs: Time,
                             options: Options, d: Decision, after: seq<CacheRecord>)
    requires Reserves(before, created, key, bodySignature, nowMs, options, d, after) && d.Reserved?
    requires 1 <= options.maxEntries && 0 < options.ttlMs
    ensures |after| <= options.maxEntries && d.record in after
    ensures forall r | r in after :: nowMs < r.expiresAtMs
    ensures forall r | r in after && r.key == key :: r == d.record
  {
    var live := Unexpired(before, nowMs) + [d.record];
    assert live[|live| - 1] == d.record;
  }
}
