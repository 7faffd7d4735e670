/** Which records of a replaced state go to the outbox, and why none of them is lost or queued twice. */
module Outbox {
  import opened Texts
  import opened KeySort
  import opened Json
  import opened JsonCanonical
  import opened FleetState
  import opened FleetRun

  /******* Positional ids *******/

  function NumberOf(digits: Text): int {
    if digits == [] then 0 else NumberOf(digits[..|digits| - 1]) * 10 + (digits[|digits| - 1] as int - 48)
  }

  lemma {:induction false} DecimalRoundTrip(n: nat)
    ensures NumberOf(Decimal(n)) == n
    decreases n
  {
    var d := Decimal(n);
    assert d[..|d| - 1] == if n < 10 then [] else Decimal(n / 10);
    if 10 <= n {
      DecimalRoundTrip(n / 10);
    }
  }

  lemma {:induction false} LeadingZeros(k: nat, digits: Text)
    ensures NumberOf(Zeros(k) + digits) == NumberOf(digits)
    decreases |digits| + k
  {
    var z := Zeros(k);
    if digits == [] {
      assert z + digits == z;
      if 0 < k {
        assert z[..k - 1] == Zeros(k - 1) && Zeros(k - 1) + [] == Zeros(k - 1);
        LeadingZeros(k - 1, []);
      }
    } else {
      var front := digits[..|digits| - 1];
      assert (z + digits)[..|z + digits| - 1] == z + front;
      LeadingZeros(k, front);
    }
  }

  lemma PaddedRoundTrip(n: nat)
    ensures NumberOf(Padded(n)) == n
  {
    DecimalRoundTrip(n);
    var d := Decimal(n);
    hide Decimal, NumberOf, Zeros;
    if |d| < 6 {
      LeadingZeros(6 - |d|, d);
    }
  }

  /** The zero-padded counter is injective, so positional ids are distinct. */
  lemma PaddedInjective(m: nat, n: nat)
    ensures Padded(m) == Padded(n) <==> m == n
  {
    PaddedRoundTrip(m);
    PaddedRoundTrip(n);
    hide Padded, NumberOf;
  }

  lemma {:induction false} DecimalShape(n: nat)
    ensures 1 <= |Decimal(n)| && forall i | 0 <= i < |Decimal(n)| :: 48 <= Decimal(n)[i] <= 57
    ensures 0 < n ==> Decimal(n)[0] != 48
    decreases n
  {
    if 10 <= n {
      DecimalShape(n / 10);
    }
  }

  /** It has six digits, or more when the number needs them; never a superfluous zero in front then. */
  lemma PaddedShape(n: nat)
    ensures forall i | 0 <= i < |Padded(n)| :: 48 <= Padded(n)[i] <= 57
    ensures |Padded(n)| == 6 || (6 < |Padded(n)| && Padded(n)[0] != 48)
    ensures DomainEventId(n) == Ascii("evt_domain_") + Padded(n) && AuditEventId(n) == Ascii("audit_") + Padded(n)
  {
    DecimalShape(n);
    if n == 0 {
      assert |Decimal(n)| == 1;
    }
    hide Decimal;
  }

  lemma IdsInjective(m: nat, n: nat)
    ensures DomainEventId(m) == DomainEventId(n) <==> m == n
    ensures AuditEventId(m) == AuditEventId(n) <==> m == n
  {
    PaddedInjective(m, n);
    assert DomainEventId(m)[|DOMAIN_EVENT_PREFIX|..] == Padded(m);
    assert DomainEventId(n)[|DOMAIN_EVENT_PREFIX|..] == Padded(n);
    assert AuditEventId(m)[|AUDIT_EVENT_PREFIX|..] == Padded(m);
    assert AuditEventId(n)[|AUDIT_EVENT_PREFIX|..] == Padded(n);
  }

  /******* Dedupe keys *******/

  /** The JSON a record is held as; what comes back from the database may list object keys in another order. */
  datatype Encoding = Encoding(domain: DomainEvent -> JsonTree, audit: AuditEvent -> JsonTree)

  ghost predicate SameUpToKeyOrder(a: Encoding, b: Encoding) {
    && (forall e: DomainEvent :: Equivalent(a.domain(e), b.domain(e)))
    && (forall e: AuditEvent :: Equivalent(a.audit(e), b.audit(e)))
  }

  const DIGEST_LENGTH := 64

  /**
   `stableValueSha256`: a hash of the text printed with sorted keys. The keys are compared by the locale and
   integer-like ones come first; all that is used of this order is that it is a strict order.
   */
  datatype Digest = Digest(hash: Text -> Text, keyOrder: Order) {
    function Of(v: JsonTree): Text {
      hash(Print(v, keyOrder))
    }
  }

  predicate IsHex(t: Text) {
    |t| == DIGEST_LENGTH && forall i | 0 <= i < |t| :: HexValue(t[i]).Some?
  }

  /** Hexadecimal digits of a fixed number. Nothing else about the hash is used. */
  ghost predicate IsDigest(digest: Digest) {
    StrictOrder(digest.keyOrder) && forall t: Text :: IsHex(digest.hash(t))
  }

  lemma DigestIsHex(digest: Digest, v: JsonTree)
    requires IsDigest(digest)
    ensures IsHex(digest.Of(v))
  {
    hide StrictOrder, IsHex, Print;
  }

  const DOMAIN_KEY: Text := Ascii("domain:")
  const AUDIT_KEY: Text := Ascii("audit:")
  const COLON: Text := Ascii(":")

  function DomainKey(e: DomainEvent, enc: Encoding, digest: Digest): Text {
    DOMAIN_KEY + e.eventId + COLON + digest.Of(enc.domain(e))
  }

  function AuditKey(e: AuditEvent, enc: Encoding, digest: Digest): Text {
    AUDIT_KEY + e.auditEventId + COLON + digest.Of(enc.audit(e))
  }

  /** The order in which the JSON lists its keys cannot change a dedupe key, whatever order they are sorted in. */
  lemma DomainKeyIgnoresOrder(a: Encoding, b: Encoding, digest: Digest, e: DomainEvent)
    requires SameUpToKeyOrder(a, b) && StrictOrder(digest.keyOrder)
    ensures DomainKey(e, a, digest) == DomainKey(e, b, digest)
  {
    PrintExact(a.domain(e), b.domain(e), digest.keyOrder);
  }

  lemma AuditKeyIgnoresOrder(a: Encoding, b: Encoding, digest: Digest, e: AuditEvent)
    requires SameUpToKeyOrder(a, b) && StrictOrder(digest.keyOrder)
    ensures AuditKey(e, a, digest) == AuditKey(e, b, digest)
  {
    PrintExact(a.audit(e), b.audit(e), digest.keyOrder);
  }

  lemma SplitKey(prefix: Text, id: Text, digest: Text)
    requires |digest| == DIGEST_LENGTH
    ensures var key := prefix + id + COLON + digest;
            |prefix| <= |key| - DIGEST_LENGTH - 1 && key[|prefix|..|key| - DIGEST_LENGTH - 1] == id
  {
  }

  /** A key determines the id it was made from, and the kind of the record. */
  lemma DomainKeyHasId(a: DomainEvent, b: DomainEvent, enc: Encoding, digest: Digest)
    requires IsDigest(digest)
    ensures DomainKey(a, enc, digest) == DomainKey(b, enc, digest) ==> a.eventId == b.eventId
  {
    SplitKey(DOMAIN_KEY, a.eventId, digest.Of(enc.domain(a)));
    SplitKey(DOMAIN_KEY, b.eventId, digest.Of(enc.domain(b)));
  }

  lemma AuditKeyHasId(a: AuditEvent, b: AuditEvent, enc: Encoding, digest: Digest)
    requires IsDigest(digest)
    ensures AuditKey(a, enc, digest) == AuditKey(b, enc, digest) ==> a.auditEventId == b.auditEventId
  {
    SplitKey(AUDIT_KEY, a.auditEventId, digest.Of(enc.audit(a)));
    SplitKey(AUDIT_KEY, b.auditEventId, digest.Of(enc.audit(b)));
  }

  lemma KindsDiffer(d: DomainEvent, a: AuditEvent, x: Encoding, y: Encoding, digest: Digest)
    ensures DomainKey(d, x, digest) != AuditKey(a, y, digest)
  {
    assert DomainKey(d, x, digest)[0] == 100;
    assert AuditKey(a, y, digest)[0] == 97;
  }

  /******* Selecting the new records *******/

  datatype Payload = DomainPayload(domain: DomainEvent) | AuditPayload(audit: AuditEvent)

  datatype OutboxRecord = OutboxRecord(
    aggregateType: AggregateType, aggregateId: Text, eventType: EventType, payload: Payload, correlationId: Text,
    causationId: Option<Id>, dedupeKey: Text)

  function DomainRecord(e: DomainEvent, key: Text): OutboxRecord {
    OutboxRecord(e.fields.aggregateType, e.fields.aggregateId, e.fields.eventType, DomainPayload(e),
                 e.fields.correlationId, e.fields.causationId, key)
  }

  /** The most specific aggregate an audit record names. */
  function AuditAggregate(e: AuditEvent): (AggregateType, Text) {
    if e.fields.missionId.Some? then (MissionAggregate, e.fields.missionId.value)
    else if e.fields.robotId.Some? then (RobotAggregate, e.fields.robotId.value)
    else if e.fields.commandId.Some? then (CommandAggregate, e.fields.commandId.value)
    else (SystemAggregate, e.auditEventId)
  }

  function AuditRecord(e: AuditEvent, key: Text): OutboxRecord {
    var aggregate := AuditAggregate(e);
    OutboxRecord(aggregate.0, aggregate.1, e.fields.action, AuditPayload(e), e.fields.correlationId,
                 e.fields.causationId, key)
  }

  /** An audit record is filed under the first of mission, robot and command that it names, or else under its own id. */
  lemma FiledUnder(e: AuditEvent, key: Text)
    ensures var r := AuditRecord(e, key);
            && (r.aggregateType == MissionAggregate <==> e.fields.missionId.Some?)
            && (r.aggregateType == RobotAggregate <==> e.fields.missionId.None? && e.fields.robotId.Some?)
            && (r.aggregateType == CommandAggregate <==>
                  e.fields.missionId.None? && e.fields.robotId.None? && e.fields.commandId.Some?)
            && (match r.aggregateType
                case MissionAggregate => Some(r.aggregateId) == e.fields.missionId
                case RobotAggregate => Some(r.aggregateId) == e.fields.robotId
                case CommandAggregate => Some(r.aggregateId) == e.fields.commandId
                case SystemAggregate => r.aggregateId == e.auditEventId)
            && r.eventType == e.fields.action && r.payload == AuditPayload(e) && r.dedupeKey == key
            && r.correlationId == e.fields.correlationId && r.causationId == e.fields.causationId
  {
  }

  function PersistedKeys(s: DomainState, enc: Encoding, digest: Digest): set<Text> {
    (set i | 0 <= i < |s.domainEvents| :: DomainKey(s.domainEvents[i], enc, digest))
    + (set i | 0 <= i < |s.auditEvents| :: AuditKey(s.auditEvents[i], enc, digest))
  }

  function NewDomain(events: seq<DomainEvent>, persisted: set<Text>, enc: Encoding, digest: Digest)
    : seq<OutboxRecord>
  {
    if events == [] then []
    else
      var last := events[|events| - 1];
      var key := DomainKey(last, enc, digest);
      NewDomain(events[..|events| - 1], persisted, enc, digest)
      + if key in persisted then [] else [DomainRecord(last, key)]
  }

  function NewAudit(events: seq<AuditEvent>, persisted: set<Text>, enc: Encoding, digest: Digest)
    : seq<OutboxRecord>
  {
    if events == [] then []
    else
      var last := events[|events| - 1];
      var key := AuditKey(last, enc, digest);
      NewAudit(events[..|events| - 1], persisted, enc, digest)
      + if key in persisted then [] else [AuditRecord(last, key)]
  }

  function NewRecords(current: DomainState, next: DomainState, stored: Encoding, memory: Encoding,
                      digest: Digest): seq<OutboxRecord>
  {
    var persisted := PersistedKeys(current, stored, digest);
    NewDomain(next.domainEvents, persisted, memory, digest) + NewAudit(next.auditEvents, persisted, memory, digest)
  }

  method SelectNewOutboxRecords(current: DomainState, next: DomainState, stored: Encoding, memory: Encoding,
                                digest: Digest) returns (records: seq<OutboxRecord>)
    ensures records == NewRecords(current, next, stored, memory, digest)
  {
    var persisted := PersistedKeys(current, stored, digest);
    hide DomainKey, AuditKey, DomainRecord, AuditRecord, PersistedKeys;
    records := [];
    for i := 0 to |next.domainEvents|
      invariant records == NewDomain(next.domainEvents[..i], persisted, memory, digest)
    {
      var event := next.domainEvents[i];
      assert next.domainEvents[..i + 1][..i] == next.domainEvents[..i];
      var key := DomainKey(event, memory, digest);
      if key !in persisted {
        records := records + [DomainRecord(event, key)];
      }
    }
    assert next.domainEvents[..|next.domainEvents|] == next.domainEvents;
    ghost var domain := records;
    for i := 0 to |next.auditEvents|
      invariant records == domain + NewAudit(next.auditEvents[..i], persisted, memory, digest)
    {
      var event := next.auditEvents[i];
      assert next.auditEvents[..i + 1][..i] == next.auditEvents[..i];
      var key := AuditKey(event, memory, digest);
      if key !in persisted {
        records := records + [AuditRecord(event, key)];
      }
    }
    assert next.auditEvents[..|next.auditEvents|] == next.auditEvents;
  }

  function DomainRecords(events: seq<DomainEvent>, enc: Encoding, digest: Digest): (rs: seq<OutboxRecord>)
    ensures |rs| == |events|
    ensures forall i | 0 <= i < |rs| :: rs[i] == DomainRecord(events[i], DomainKey(events[i], enc, digest))
  {
    seq(|events|, i requires 0 <= i < |events| => DomainRecord(events[i], DomainKey(events[i], enc, digest)))
  }

  function AuditRecords(events: seq<AuditEvent>, enc: Encoding, digest: Digest): (rs: seq<OutboxRecord>)
    ensures |rs| == |events|
    ensures forall i | 0 <= i < |rs| :: rs[i] == AuditRecord(events[i], AuditKey(events[i], enc, digest))
  {
    seq(|events|, i requires 0 <= i < |events| => AuditRecord(events[i], AuditKey(events[i], enc, digest)))
  }

  /** The old part of a log is filtered out and the new part is kept, whole and in order. */
  lemma DomainRecordsSnoc(events: seq<DomainEvent>, last: DomainEvent, enc: Encoding, digest: Digest)
    ensures DomainRecords(events + [last], enc, digest)
         == DomainRecords(events, enc, digest) + [DomainRecord(last, DomainKey(last, enc, digest))]
  {
    hide DomainKey, DomainRecord;
  }

  lemma {:induction false} NewDomainIs(events: seq<DomainEvent>, oldCount: nat, persisted: set<Text>, enc: Encoding,
                                       digest: Digest)
    requires forall i | 0 <= i < |events| :: DomainKey(events[i], enc, digest) in persisted <==> i < oldCount
    ensures NewDomain(events, persisted, enc, digest)
         == if |events| <= oldCount then [] else DomainRecords(events[oldCount..], enc, digest)
  {
    hide DomainKey, DomainRecord, DomainRecords;
    if events != [] {
      var front, last := events[..|events| - 1], events[|events| - 1];
      NewDomainIs(front, oldCount, persisted, enc, digest);
      if oldCount < |events| {
        DomainRecordsSnoc(front[oldCount..], last, enc, digest);
        assert events[oldCount..] == front[oldCount..] + [last];
        DomainRecordsEmpty(enc, digest);
      }
    }
  }

  lemma DomainRecordsEmpty(enc: Encoding, digest: Digest)
    ensures DomainRecords([], enc, digest) == []
  {
  }

  lemma AuditRecordsSnoc(events: seq<AuditEvent>, last: AuditEvent, enc: Encoding, digest: Digest)
    ensures AuditRecords(events + [last], enc, digest)
         == AuditRecords(events, enc, digest) + [AuditRecord(last, AuditKey(last, enc, digest))]
  {
    hide AuditKey, AuditRecord;
  }

  lemma {:induction false} NewAuditIs(events: seq<AuditEvent>, oldCount: nat, persisted: set<Text>, enc: Encoding,
                                       digest: Digest)
    requires forall i | 0 <= i < |events| :: AuditKey(events[i], enc, digest) in persisted <==> i < oldCount
    ensures NewAudit(events, persisted, enc, digest)
         == if |events| <= oldCount then [] else AuditRecords(events[oldCount..], enc, digest)
  {
    hide AuditKey, AuditRecord, AuditRecords;
    if events != [] {
      var front, last := events[..|events| - 1], events[|events| - 1];
      NewAuditIs(front, oldCount, persisted, enc, digest);
      if oldCount < |events| {
        AuditRecordsSnoc(front[oldCount..], last, enc, digest);
        assert events[oldCount..] == front[oldCount..] + [last];
        AuditRecordsEmpty(enc, digest);
      }
    }
  }

  lemma AuditRecordsEmpty(enc: Encoding, digest: Digest)
    ensures AuditRecords([], enc, digest) == []
  {
  }

  /** `next` extends the logs of `current`, and all records carry their positions. */
  ghost predicate Extends(current: DomainState, next: DomainState) {
    && current.domainEvents <= next.domainEvents && current.auditEvents <= next.auditEvents
    && LogsNumbered(next)
  }

  lemma PersistedIsOld(current: DomainState, next: DomainState, stored: Encoding, memory: Encoding,
                       digest: Digest)
    requires Extends(current, next) && SameUpToKeyOrder(stored, memory) && IsDigest(digest)
    ensures var persisted := PersistedKeys(current, stored, digest);
            && (forall i | 0 <= i < |next.domainEvents| ::
                  DomainKey(next.domainEvents[i], memory, digest) in persisted <==> i < |current.domainEvents|)
            && (forall i | 0 <= i < |next.auditEvents| ::
                  AuditKey(next.auditEvents[i], memory, digest) in persisted <==> i < |current.auditEvents|)
  {
    var persisted := PersistedKeys(current, stored, digest);
    hide DomainKey, AuditKey, DomainEventId, AuditEventId;
    forall i | 0 <= i < |next.domainEvents|
      ensures DomainKey(next.domainEvents[i], memory, digest) in persisted <==> i < |current.domainEvents|
    {
      DomainKeyPersisted(current, next, stored, memory, digest, i);
    }
    forall i | 0 <= i < |next.auditEvents|
      ensures AuditKey(next.auditEvents[i], memory, digest) in persisted <==> i < |current.auditEvents|
    {
      AuditKeyPersisted(current, next, stored, memory, digest, i);
    }
  }

  lemma DomainKeyPersisted(current: DomainState, next: DomainState, stored: Encoding, memory: Encoding,
                           digest: Digest, i: nat)
    requires Extends(current, next) && SameUpToKeyOrder(stored, memory) && IsDigest(digest)
    requires i < |next.domainEvents|
    ensures DomainKey(next.domainEvents[i], memory, digest) in PersistedKeys(current, stored, digest)
            <==> i < |current.domainEvents|
  {
    var e, earlier := next.domainEvents[i], current.domainEvents;
    var key := DomainKey(e, memory, digest);
    forall j | 0 <= j < |earlier| ensures DomainKey(earlier[j], stored, digest) == key ==> j == i {
      DomainKeyMeans(e, earlier[j], stored, memory, digest);
      IdsInjective(j + 1, i + 1);
    }
    forall j | 0 <= j < |current.auditEvents| ensures AuditKey(current.auditEvents[j], stored, digest) != key {
      KindsDiffer(e, current.auditEvents[j], memory, stored, digest);
    }
    if i < |earlier| {
      assert earlier[i] == e;
      DomainKeyMeans(e, e, stored, memory, digest);
    }
    hide DomainKey, AuditKey, SameUpToKeyOrder, IsDigest, Extends;
  }

  lemma DomainKeyMeans(e: DomainEvent, d: DomainEvent, stored: Encoding, memory: Encoding, digest: Digest)
    requires SameUpToKeyOrder(stored, memory) && IsDigest(digest)
    ensures DomainKey(d, stored, digest) == DomainKey(e, memory, digest) ==> d.eventId == e.eventId
    ensures DomainKey(e, stored, digest) == DomainKey(e, memory, digest)
  {
    DomainKeyIgnoresOrder(stored, memory, digest, e);
    DomainKeyHasId(d, e, stored, digest);
  }

  lemma AuditKeyPersisted(current: DomainState, next: DomainState, stored: Encoding, memory: Encoding,
                          digest: Digest, i: nat)
    requires Extends(current, next) && SameUpToKeyOrder(stored, memory) && IsDigest(digest)
    requires i < |next.auditEvents|
    ensures AuditKey(next.auditEvents[i], memory, digest) in PersistedKeys(current, stored, digest)
            <==> i < |current.auditEvents|
  {
    var e, earlier := next.auditEvents[i], current.auditEvents;
    var key := AuditKey(e, memory, digest);
    forall j | 0 <= j < |earlier| ensures AuditKey(earlier[j], stored, digest) == key ==> j == i {
      AuditKeyMeans(e, earlier[j], stored, memory, digest);
      IdsInjective(j + 1, i + 1);
    }
    forall j | 0 <= j < |current.domainEvents| ensures DomainKey(current.domainEvents[j], stored, digest) != key {
      KindsDiffer(current.domainEvents[j], e, stored, memory, digest);
    }
    if i < |earlier| {
      assert earlier[i] == e;
      AuditKeyMeans(e, e, stored, memory, digest);
    }
    hide DomainKey, AuditKey, SameUpToKeyOrder, IsDigest, Extends;
  }

  lemma AuditKeyMeans(e: AuditEvent, d: AuditEvent, stored: Encoding, memory: Encoding, digest: Digest)
    requires SameUpToKeyOrder(stored, memory) && IsDigest(digest)
    ensures AuditKey(d, stored, digest) == AuditKey(e, memory, digest) ==> d.auditEventId == e.auditEventId
    ensures AuditKey(e, stored, digest) == AuditKey(e, memory, digest)
  {
    AuditKeyIgnoresOrder(stored, memory, digest, e);
    AuditKeyHasId(d, e, stored, digest);
  }

  /** The rows of the records by which `next` extends `current`. */
  function Appended(current: DomainState, next: DomainState, enc: Encoding, digest: Digest): seq<OutboxRecord>
    requires |current.domainEvents| <= |next.domainEvents| && |current.auditEvents| <= |next.auditEvents|
  {
    DomainRecords(next.domainEvents[|current.domainEvents|..], enc, digest)
    + AuditRecords(next.auditEvents[|current.auditEvents|..], enc, digest)
  }

  /** One replacement selects exactly the appended records, whatever the key order of the stored JSON. */
  lemma SelectsAppended(current: DomainState, next: DomainState, stored: Encoding, memory: Encoding,
                        digest: Digest)
    requires Extends(current, next) && SameUpToKeyOrder(stored, memory) && IsDigest(digest)
    ensures NewRecords(current, next, stored, memory, digest) == Appended(current, next, memory, digest)
  {
    PersistedIsOld(current, next, stored, memory, digest);
    hide DomainKey, AuditKey, PersistedKeys, Extends, SameUpToKeyOrder;
    assert |current.domainEvents| <= |next.domainEvents| && |current.auditEvents| <= |next.auditEvents|;
    var persisted := PersistedKeys(current, stored, digest);
    NewDomainIs(next.domainEvents, |current.domainEvents|, persisted, memory, digest);
    NewAuditIs(next.auditEvents, |current.auditEvents|, persisted, memory, digest);
  }

  /******* Inserting them *******/

  predicate KeyTaken(box: seq<OutboxRecord>, key: Text) {
    exists r :: r in box && r.dedupeKey == key
  }

  /** `INSERT ... ON CONFLICT (dedupe_key) DO NOTHING`, record by record. */
  function Enqueued(box: seq<OutboxRecord>, records: seq<OutboxRecord>): seq<OutboxRecord> {
    if records == [] then box
    else
      var before := Enqueued(box, records[..|records| - 1]);
      var last := records[|records| - 1];
      if KeyTaken(before, last.dedupeKey) then before else before + [last]
  }

  lemma {:induction false} EnqueuedFresh(box: seq<OutboxRecord>, records: seq<OutboxRecord>)
    requires forall i | 0 <= i < |records| :: !KeyTaken(box, records[i].dedupeKey)
    requires forall i, j | 0 <= i < j < |records| :: records[i].dedupeKey != records[j].dedupeKey
    ensures Enqueued(box, records) == box + records
  {
    if records != [] {
      EnqueuedFresh(box, records[..|records| - 1]);
      assert records == records[..|records| - 1] + [records[|records| - 1]];
    }
  }

  /******* Runs *******/

  /** The domain events, or the audit events, among the queued records, in queue order. */
  function DomainIn(box: seq<OutboxRecord>): seq<DomainEvent> {
    if box == [] then []
    else
      DomainIn(box[..|box| - 1])
      + if box[|box| - 1].payload.DomainPayload? then [box[|box| - 1].payload.domain] else []
  }

  function AuditIn(box: seq<OutboxRecord>): seq<AuditEvent> {
    if box == [] then []
    else
      AuditIn(box[..|box| - 1])
      + if box[|box| - 1].payload.AuditPayload? then [box[|box| - 1].payload.audit] else []
  }

  lemma OneMore(box: seq<OutboxRecord>, r: OutboxRecord)
    ensures DomainIn(box + [r]) == DomainIn(box) + if r.payload.DomainPayload? then [r.payload.domain] else []
    ensures AuditIn(box + [r]) == AuditIn(box) + if r.payload.AuditPayload? then [r.payload.audit] else []
  {
    var all := box + [r];
    assert all[..|all| - 1] == box;
  }

  lemma {:induction false} DomainInAppended(a: seq<OutboxRecord>, b: seq<OutboxRecord>)
    ensures DomainIn(a + b) == DomainIn(a) + DomainIn(b)
  {
    if b == [] {
      assert a + b == a;
    } else {
      var front, last := b[..|b| - 1], b[|b| - 1];
      DomainInAppended(a, front);
      OneMore(a + front, last);
      OneMore(front, last);
      hide DomainIn;
      assert a + b == a + front + [last] && b == front + [last];
    }
  }

  lemma {:induction false} AuditInAppended(a: seq<OutboxRecord>, b: seq<OutboxRecord>)
    ensures AuditIn(a + b) == AuditIn(a) + AuditIn(b)
  {
    if b == [] {
      assert a + b == a;
    } else {
      var front, last := b[..|b| - 1], b[|b| - 1];
      AuditInAppended(a, front);
      OneMore(a + front, last);
      OneMore(front, last);
      hide AuditIn;
      assert a + b == a + front + [last] && b == front + [last];
    }
  }

  lemma InAppended(a: seq<OutboxRecord>, b: seq<OutboxRecord>)
    ensures DomainIn(a + b) == DomainIn(a) + DomainIn(b)
    ensures AuditIn(a + b) == AuditIn(a) + AuditIn(b)
  {
    DomainInAppended(a, b);
    AuditInAppended(a, b);
  }

  lemma {:induction false} InDomainRecords(events: seq<DomainEvent>, enc: Encoding, digest: Digest)
    ensures DomainIn(DomainRecords(events, enc, digest)) == events && AuditIn(DomainRecords(events, enc, digest)) == []
  {
    hide DomainKey;
    if events != [] {
      var front := events[..|events| - 1];
      InDomainRecords(front, enc, digest);
      var rs := DomainRecords(events, enc, digest);
      assert rs[..|rs| - 1] == DomainRecords(front, enc, digest);
      hide DomainRecords;
    }
  }

  lemma {:induction false} InAuditRecords(events: seq<AuditEvent>, enc: Encoding, digest: Digest)
    ensures AuditIn(AuditRecords(events, enc, digest)) == events && DomainIn(AuditRecords(events, enc, digest)) == []
  {
    hide AuditKey;
    if events != [] {
      var front := events[..|events| - 1];
      InAuditRecords(front, enc, digest);
      var rs := AuditRecords(events, enc, digest);
      assert rs[..|rs| - 1] == AuditRecords(front, enc, digest);
      hide AuditRecords;
    }
  }

  /** Each queued record is the row of an event in its payload, and that event is among those listed. */
  ghost predicate RowsOf(box: seq<OutboxRecord>, enc: Encoding, digest: Digest) {
    forall r | r in box ::
      match r.payload
      case DomainPayload(e) => e in DomainIn(box) && r == DomainRecord(e, DomainKey(e, enc, digest))
      case AuditPayload(e) => e in AuditIn(box) && r == AuditRecord(e, AuditKey(e, enc, digest))
  }

  /** The outbox holds the events of `s` from these positions on: each once, and nothing else. */
  ghost predicate HoldsSince(box: seq<OutboxRecord>, s: DomainState, d: nat, a: nat, enc: Encoding,
                             digest: Digest)
  {
    && d <= |s.domainEvents| && a <= |s.auditEvents|
    && DomainIn(box) == s.domainEvents[d..]
    && AuditIn(box) == s.auditEvents[a..]
    && RowsOf(box, enc, digest)
  }

  lemma InBehind(box: seq<OutboxRecord>, events: seq<DomainEvent>, audits: seq<AuditEvent>, enc: Encoding,
                 digest: Digest)
    ensures var all := box + (DomainRecords(events, enc, digest) + AuditRecords(audits, enc, digest));
            DomainIn(all) == DomainIn(box) + events && AuditIn(all) == AuditIn(box) + audits
  {
    var x, y := DomainRecords(events, enc, digest), AuditRecords(audits, enc, digest);
    InDomainRecords(events, enc, digest);
    InAuditRecords(audits, enc, digest);
    hide DomainRecords, AuditRecords, DomainIn, AuditIn;
    InAppended(x, y);
    assert DomainIn(x + y) == events && AuditIn(x + y) == audits;
    InAppended(box, x + y);
  }

  lemma NewRecordsHold(box: seq<OutboxRecord>, s: DomainState, n: DomainState, d: nat, a: nat, enc: Encoding,
                       digest: Digest)
    requires HoldsSince(box, s, d, a, enc, digest) && Extends(s, n)
    ensures HoldsSince(box + Appended(s, n, enc, digest), n, d, a, enc, digest)
  {
    hide RowsOf, LogsNumbered, DomainIn, AuditIn, DomainRecords, AuditRecords;
    var events, audits := n.domainEvents[|s.domainEvents|..], n.auditEvents[|s.auditEvents|..];
    InBehind(box, events, audits, enc, digest);
    RowsAppended(box, events, audits, enc, digest);
    SuffixGrows(s.domainEvents, n.domainEvents, d);
    SuffixGrows(s.auditEvents, n.auditEvents, a);
  }

  lemma SuffixGrows<T>(before: seq<T>, after: seq<T>, from: nat)
    requires from <= |before| && before <= after
    ensures before[from..] + after[|before|..] == after[from..]
  {
  }

  lemma NewRecordsQueue(box: seq<OutboxRecord>, s: DomainState, n: DomainState, d: nat, a: nat, enc: Encoding,
                        digest: Digest)
    requires HoldsSince(box, s, d, a, enc, digest) && Extends(s, n) && IsDigest(digest)
    ensures Enqueued(box, Appended(s, n, enc, digest)) == box + Appended(s, n, enc, digest)
  {
    var rs := Appended(s, n, enc, digest);
    NewKeysDiffer(s, n, enc, digest);
    forall i | 0 <= i < |rs| ensures !KeyTaken(box, rs[i].dedupeKey) {
      var k := n.domainEvents[|s.domainEvents|..];
      if i < |k| {
        DomainKeyFree(box, s, n, d, a, enc, digest, |s.domainEvents| + i);
      } else {
        AuditKeyFree(box, s, n, d, a, enc, digest, |s.auditEvents| + i - |k|);
      }
      hide KeyTaken, HoldsSince;
    }
    hide Appended, HoldsSince, Extends;
    EnqueuedFresh(box, rs);
  }

  lemma RowsAppended(box: seq<OutboxRecord>, events: seq<DomainEvent>, audits: seq<AuditEvent>, enc: Encoding,
                     digest: Digest)
    requires RowsOf(box, enc, digest)
    requires var x, y := DomainRecords(events, enc, digest), AuditRecords(audits, enc, digest);
             DomainIn(box + (x + y)) == DomainIn(box) + events && AuditIn(box + (x + y)) == AuditIn(box) + audits
    ensures RowsOf(box + (DomainRecords(events, enc, digest) + AuditRecords(audits, enc, digest)), enc, digest)
  {
    hide DomainKey, AuditKey, DomainIn, AuditIn;
  }

  /** Keys of records at different positions differ. */
  lemma PositionsDiffer(n: DomainState, i: nat, j: nat, enc: Encoding, digest: Digest)
    requires LogsNumbered(n) && i != j && IsDigest(digest)
    ensures i < |n.domainEvents| && j < |n.domainEvents| ==>
              DomainKey(n.domainEvents[i], enc, digest) != DomainKey(n.domainEvents[j], enc, digest)
    ensures i < |n.auditEvents| && j < |n.auditEvents| ==>
              AuditKey(n.auditEvents[i], enc, digest) != AuditKey(n.auditEvents[j], enc, digest)
  {
    hide DomainEventId, AuditEventId, DomainKey, AuditKey, IsDigest;
    IdsInjective(i + 1, j + 1);
    if i < |n.domainEvents| && j < |n.domainEvents| {
      assert n.domainEvents[i].eventId != n.domainEvents[j].eventId;
      DomainKeyHasId(n.domainEvents[i], n.domainEvents[j], enc, digest);
    }
    if i < |n.auditEvents| && j < |n.auditEvents| {
      assert n.auditEvents[i].auditEventId != n.auditEvents[j].auditEventId;
      AuditKeyHasId(n.auditEvents[i], n.auditEvents[j], enc, digest);
    }
  }

  /** The key of an event a step appends is not in the box yet. */
  lemma DomainKeyFree(box: seq<OutboxRecord>, s: DomainState, n: DomainState, d: nat, a: nat, enc: Encoding,
                      digest: Digest, i: nat)
    requires HoldsSince(box, s, d, a, enc, digest) && Extends(s, n) && IsDigest(digest)
    requires |s.domainEvents| <= i < |n.domainEvents|
    ensures !KeyTaken(box, DomainKey(n.domainEvents[i], enc, digest))
  {
    var key := DomainKey(n.domainEvents[i], enc, digest);
    forall r | r in box ensures r.dedupeKey != key {
      match r.payload
      case DomainPayload(e) =>
        var j :| 0 <= j < |s.domainEvents| && s.domainEvents[j] == e;
        assert n.domainEvents[j] == e;
        PositionsDiffer(n, i, j, enc, digest);
      case AuditPayload(e) => KindsDiffer(n.domainEvents[i], e, enc, enc, digest);
      hide DomainKey, AuditKey, LogsNumbered, AuditIn, DomainIn;
    }
  }

  lemma AuditKeyFree(box: seq<OutboxRecord>, s: DomainState, n: DomainState, d: nat, a: nat, enc: Encoding,
                     digest: Digest, i: nat)
    requires HoldsSince(box, s, d, a, enc, digest) && Extends(s, n) && IsDigest(digest)
    requires |s.auditEvents| <= i < |n.auditEvents|
    ensures !KeyTaken(box, AuditKey(n.auditEvents[i], enc, digest))
  {
    var key := AuditKey(n.auditEvents[i], enc, digest);
    forall r | r in box ensures r.dedupeKey != key {
      match r.payload
      case AuditPayload(e) =>
        var j :| 0 <= j < |s.auditEvents| && s.auditEvents[j] == e;
        assert n.auditEvents[j] == e;
        PositionsDiffer(n, i, j, enc, digest);
      case DomainPayload(e) => KindsDiffer(e, n.auditEvents[i], enc, enc, digest);
      hide DomainKey, AuditKey, LogsNumbered, AuditIn, DomainIn;
    }
  }

  lemma KeyAt(s: DomainState, n: DomainState, enc: Encoding, digest: Digest, i: nat)
    requires Extends(s, n) && i < |Appended(s, n, enc, digest)|
    ensures var k := |n.domainEvents| - |s.domainEvents|;
            Appended(s, n, enc, digest)[i].dedupeKey
            == if i < k then DomainKey(n.domainEvents[|s.domainEvents| + i], enc, digest)
               else AuditKey(n.auditEvents[|s.auditEvents| + i - k], enc, digest)
  {
    hide DomainKey, AuditKey, LogsNumbered;
  }

  lemma AppendedLength(s: DomainState, n: DomainState, enc: Encoding, digest: Digest)
    requires Extends(s, n)
    ensures |Appended(s, n, enc, digest)|
         == |n.domainEvents| - |s.domainEvents| + |n.auditEvents| - |s.auditEvents|
  {
  }

  lemma KeysDifferAt(s: DomainState, n: DomainState, enc: Encoding, digest: Digest, i: nat, j: nat)
    requires Extends(s, n) && IsDigest(digest) && i < j < |Appended(s, n, enc, digest)|
    ensures Appended(s, n, enc, digest)[i].dedupeKey != Appended(s, n, enc, digest)[j].dedupeKey
  {
    hide DomainKey, AuditKey, LogsNumbered, Appended, IsDigest;
    var d, a := |s.domainEvents|, |s.auditEvents|;
    var k := |n.domainEvents| - d;
    AppendedLength(s, n, enc, digest);
    KeyAt(s, n, enc, digest, i);
    KeyAt(s, n, enc, digest, j);
    if j < k {
      PositionsDiffer(n, d + i, d + j, enc, digest);
    } else if k <= i {
      PositionsDiffer(n, a + i - k, a + j - k, enc, digest);
    } else {
      KindsDiffer(n.domainEvents[d + i], n.auditEvents[a + j - k], enc, enc, digest);
    }
  }

  /** The keys of one selection are pairwise different. */
  lemma NewKeysDiffer(s: DomainState, n: DomainState, enc: Encoding, digest: Digest)
    requires Extends(s, n) && IsDigest(digest)
    ensures var rs := Appended(s, n, enc, digest);
            forall i, j | 0 <= i < j < |rs| :: rs[i].dedupeKey != rs[j].dedupeKey
  {
    var rs := Appended(s, n, enc, digest);
    forall i, j | 0 <= i < j < |rs| ensures rs[i].dedupeKey != rs[j].dedupeKey {
      KeysDifferAt(s, n, enc, digest, i, j);
    }
    hide Appended, IsDigest;
  }
}
