/** What the columns of the tables accept: texts, times, counters and percentages, row by row. */
module Columns {
  import opened Texts
  import opened KeySort
  import opened Json
  import opened FleetState

  /******* Texts *******/

  /** The surrogate at this position is not half of a pair. */
  predicate Lone(t: Text, i: nat)
    requires i < |t|
  {
    || (IsHighSurrogate(t[i]) && !(i + 1 < |t| && IsLowSurrogate(t[i + 1])))
    || (IsLowSurrogate(t[i]) && !(0 < i && IsHighSurrogate(t[i - 1])))
  }

  predicate WellPaired(t: Text) {
    forall i: nat | i < |t| :: !Lone(t, i)
  }

  /** No column of any type accepts U+0000. */
  predicate NoNul(t: Text) {
    forall i | 0 <= i < |t| :: t[i] != 0
  }

  /** What `jsonb` accepts inside a string. Every row also holds its whole content as JSON. */
  predicate Clean(t: Text) {
    NoNul(t) && WellPaired(t)
  }

  predicate OptClean(t: Option<Id>) {
    t.Some? ==> Clean(t.value)
  }

  /** What a text parameter becomes on its way to the database: UTF-8 has no unpaired surrogates. */
  function Utf8(t: Text): (r: Text)
    ensures |r| == |t|
  {
    seq(|t|, i requires 0 <= i < |t| => if Lone(t, i) then 0xFFFD else t[i])
  }

  /** Encoding changes nothing but unpaired surrogates, and leaves none. */
  lemma Utf8Exact(t: Text)
    ensures Utf8(t) == t <==> WellPaired(t)
    ensures WellPaired(Utf8(t))
    ensures NoNul(Utf8(t)) <==> NoNul(t)
    ensures Utf8(Utf8(t)) == Utf8(t)
  {
    var u := Utf8(t);
    if !WellPaired(t) {
      var i: nat :| i < |t| && Lone(t, i);
      assert u[i] != t[i];
    }
    forall i: nat | i < |u| ensures !Lone(u, i) {
      assert IsHighSurrogate(u[i]) ==> !Lone(t, i) && u[i + 1] == t[i + 1];
      assert IsLowSurrogate(u[i]) ==> !Lone(t, i) && u[i - 1] == t[i - 1];
    }
    assert forall i | 0 <= i < |t| :: u[i] == 0 <==> t[i] == 0;
    if NoNul(u) {
      assert forall i | 0 <= i < |t| :: u[i] != 0;
    }
    assert Utf8(u) == u;
  }

  /** Texts are clean together when each is clean alone. */
  lemma CleanJoin(a: Text, b: Text)
    requires Clean(a) && Clean(b)
    ensures Clean(a + b)
  {
    var t := a + b;
    forall i: nat | i < |t| ensures !Lone(t, i) {
      if i < |a| {
        assert !Lone(a, i);
      } else {
        assert !Lone(b, i - |a|);
      }
    }
  }

  predicate Plain(t: Text) {
    forall i | 0 <= i < |t| :: 0 < t[i] < 0xD800
  }

  lemma PlainIsClean(t: Text)
    requires Plain(t)
    ensures Clean(t)
  {
  }

  /** A plain prefix does not matter. */
  lemma CleanBehind(prefix: Text, t: Text)
    requires Plain(prefix)
    ensures Clean(prefix + t) <==> Clean(t)
  {
    var u := prefix + t;
    if Clean(u) {
      forall i: nat | i < |t| ensures t[i] != 0 && !Lone(t, i) {
        assert u[|prefix| + i] == t[i] && !Lone(u, |prefix| + i);
      }
    }
    if Clean(t) {
      CleanJoin(prefix, t);
    }
  }

  /** What `jsonb` accepts: no string and no key holds U+0000 or an unpaired surrogate. */
  predicate JsonClean(v: Json) {
    match v
    case JString(s) => Clean(s)
    case JArray(items) => forall i | 0 <= i < |items| :: JsonClean(items[i])
    case JObject(ms) => forall i | 0 <= i < |ms| :: Clean(ms[i].key) && JsonClean(ms[i].value)
    case _ => true
  }

  /******* Numbers and times *******/

  const MAX_BIGINT := 9223372036854775807

  /** A `bigint` with a check that it is not negative. */
  predicate CounterFits(n: int) {
    0 <= n <= MAX_BIGINT
  }

  /** An `integer` with a check on its range: a fraction has no integer form to be sent in. */
  predicate BatteryFits(percent: real) {
    percent.Floor as real == percent && 0.0 <= percent <= 100.0
  }

  const FIRST_TIME: Time := -62135596800000
  const LAST_TIME: Time := 253402300799999

  /** A time that an ISO text with a four-digit year can give a `timestamptz`; there is no year 0. */
  predicate TimeFits(t: Time) {
    FIRST_TIME <= t <= LAST_TIME
  }

  predicate OptTimeFits(t: Option<Time>) {
    t.Some? ==> TimeFits(t.value)
  }

  /******* Rows *******/

  predicate RobotFits(r: Robot) {
    && Clean(r.robotId) && OptClean(r.activeMissionId) && OptClean(r.lastAcknowledgedCommandId)
    && OptClean(r.edgeAgentVersion)
    && (r.batteryPercent.Some? ==> BatteryFits(r.batteryPercent.value))
    && CounterFits(r.lastSeenCommandSequence)
    && OptTimeFits(r.lastTelemetryObservedAt) && OptTimeFits(r.lastTelemetryReceivedAt) && TimeFits(r.updatedAt)
  }

  predicate MissionFits(m: Mission) {
    && Clean(m.missionId) && Clean(m.robotId) && OptClean(m.currentCommandId)
    && OptClean(m.lastAcknowledgedCommandId) && OptClean(m.idempotencyKey)
    && (m.lastCommandSequence.Some? ==> CounterFits(m.lastCommandSequence.value))
    && (m.lastAcknowledgedCommandSequence.Some? ==> CounterFits(m.lastAcknowledgedCommandSequence.value))
    && (m.failureReason.Some? && m.failureReason.value.ReportedByEdge? ==> Clean(m.failureReason.value.text))
    && TimeFits(m.createdAt) && TimeFits(m.updatedAt)
  }

  /** That the sequence is positive is a constraint of the table. */
  predicate CommandFits(c: Command) {
    && Clean(c.commandId) && Clean(c.missionId) && Clean(c.robotId) && Clean(c.idempotencyKey)
    && Clean(c.correlationId) && Clean(c.causationId) && JsonClean(c.payload)
    && c.sequence <= MAX_BIGINT && TimeFits(c.issuedAt) && TimeFits(c.expiresAt)
  }

  predicate RecordFits(k: IdempotencyRecord) {
    Clean(k.idempotencyKey) && Clean(k.payloadSignature) && Clean(k.commandId) && Clean(k.missionId)
  }

  predicate TelemetryClean(t: TelemetryReport) {
    Clean(t.eventId) && Clean(t.robotId) && OptClean(t.currentMissionId) && OptClean(t.lastAcknowledgedCommandId)
    && Clean(t.edgeAgentVersion)
  }

  predicate HandshakeClean(h: HandshakeReport) {
    Clean(h.robotId) && Clean(h.edgeSessionId) && OptClean(h.lastAcknowledgedCommandId)
    && OptClean(h.reportedMissionId) && Clean(h.edgeAgentVersion)
  }

  predicate DetailsClean(d: RejectionDetails) {
    match d
    case ExistingCommand(id) => Clean(id)
    case ActiveMissionDetails(id) => Clean(id)
    case _ => true
  }

  predicate PayloadClean(p: EventPayload) {
    match p
    case CommandSummary(commandId, robotId, _) => Clean(commandId) && Clean(robotId)
    case CancelDetails(reason, _) => Clean(reason)
    case Rejection(_, details) => DetailsClean(details)
    case AckSummary(_, _, _, missionId, robotId, _) => OptClean(missionId) && OptClean(robotId)
    case TimeoutSummary(commandId) => Clean(commandId)
    case TelemetrySummary(t) => TelemetryClean(t)
    case Reconciled(_, _, h) => HandshakeClean(h)
    case _ => true
  }

  predicate EventClean(e: DomainEvent) {
    Clean(e.eventId) && Clean(e.fields.aggregateId) && Clean(e.fields.correlationId)
    && OptClean(e.fields.causationId) && PayloadClean(e.fields.payload)
  }

  predicate AuditClean(e: AuditEvent) {
    Clean(e.auditEventId) && OptClean(e.fields.missionId) && OptClean(e.fields.robotId)
    && OptClean(e.fields.commandId) && Clean(e.fields.correlationId) && OptClean(e.fields.causationId)
    && PayloadClean(e.fields.details)
  }

  predicate EventFits(e: DomainEvent) {
    EventClean(e) && TimeFits(e.fields.occurredAt) && TimeFits(e.fields.receivedAt)
  }

  predicate AuditFits(e: AuditEvent) {
    AuditClean(e) && TimeFits(e.fields.occurredAt)
  }

  predicate RobotsFit(robots: map<Id, Robot>) {
    forall r | r in robots :: RobotFits(robots[r])
  }

  predicate MissionsFit(missions: map<Id, Mission>) {
    forall m | m in missions :: MissionFits(missions[m])
  }

  predicate CommandsFit(commands: map<Id, Command>) {
    forall c | c in commands :: CommandFits(commands[c])
  }

  predicate RecordsFit(records: map<Id, IdempotencyRecord>) {
    forall k | k in records :: RecordFits(records[k])
  }

  predicate EventsFit(events: seq<DomainEvent>) {
    forall i | 0 <= i < |events| :: EventFits(events[i])
  }

  predicate AuditsFit(events: seq<AuditEvent>) {
    forall i | 0 <= i < |events| :: AuditFits(events[i])
  }

  /** Lists of processed ids are `text[]`: unlike JSON, it takes any text without U+0000. */
  predicate NoNuls(ids: seq<Text>) {
    forall i | 0 <= i < |ids| :: NoNul(ids[i])
  }

  /** The counters are stored as one JSON object with the robots' ids for keys. */
  predicate CountersFit(next: map<Id, int>) {
    forall r | r in next :: Clean(r)
  }

  /** Every value of the state has a form that its column accepts. */
  predicate RowsFit(s: DomainState) {
    && RobotsFit(s.robots) && MissionsFit(s.missions) && CommandsFit(s.commands)
    && RecordsFit(s.idempotencyRecords) && EventsFit(s.domainEvents) && AuditsFit(s.auditEvents)
    && NoNuls(s.processedEventIds) && NoNuls(s.processedAckIds) && NoNuls(s.processedSessionIds)
    && CountersFit(s.nextSequence)
  }

  /******* What comes back *******/

  function Utf8Id(id: Id): Id {
    Utf8(id)
  }

  function Utf8Ids(ids: seq<Id>): (r: seq<Id>)
    ensures |r| == |ids| && forall i | 0 <= i < |ids| :: r[i] == Utf8(ids[i])
  {
    seq(|ids|, i requires 0 <= i < |ids| => Utf8Id(ids[i]))
  }

  /** The state as the tables hold it: the processed ids in UTF-8, everything else as it was. */
  function Written(s: DomainState): DomainState {
    s.(processedEventIds := Utf8Ids(s.processedEventIds), processedAckIds := Utf8Ids(s.processedAckIds),
       processedSessionIds := Utf8Ids(s.processedSessionIds))
  }

  lemma WrittenExact(s: DomainState)
    ensures Written(s) == s <==>
              && (forall i | 0 <= i < |s.processedEventIds| :: WellPaired(s.processedEventIds[i]))
              && (forall i | 0 <= i < |s.processedAckIds| :: WellPaired(s.processedAckIds[i]))
              && (forall i | 0 <= i < |s.processedSessionIds| :: WellPaired(s.processedSessionIds[i]))
    ensures RowsFit(Written(s)) <==> RowsFit(s)
    ensures Written(Written(s)) == Written(s)
  {
    IdsExact(s.processedEventIds);
    IdsExact(s.processedAckIds);
    IdsExact(s.processedSessionIds);
    hide Utf8Ids, WellPaired, NoNuls;
  }

  lemma IdsExact(ids: seq<Id>)
    ensures Utf8Ids(ids) == ids <==> forall i | 0 <= i < |ids| :: WellPaired(ids[i])
    ensures NoNuls(Utf8Ids(ids)) <==> NoNuls(ids)
    ensures Utf8Ids(Utf8Ids(ids)) == Utf8Ids(ids)
  {
    var r := Utf8Ids(ids);
    forall i | 0 <= i < |ids|
      ensures (r[i] == ids[i] <==> WellPaired(ids[i])) && (NoNul(r[i]) <==> NoNul(ids[i])) && Utf8(r[i]) == r[i]
    {
      Utf8Exact(ids[i]);
    }
    hide Utf8, WellPaired, NoNul;
    assert (forall i | 0 <= i < |ids| :: WellPaired(ids[i])) ==> r == ids;
    assert r == ids ==> forall i | 0 <= i < |ids| :: r[i] == ids[i];
    assert NoNuls(r) ==> forall i | 0 <= i < |ids| :: NoNul(r[i]);
  }

  const MAX_SAFE_INTEGER := 9007199254740991

  predicate OptSafe(n: Option<int>) {
    n.Some? ==> n.value <= MAX_SAFE_INTEGER
  }

  predicate RobotsReadable(robots: map<Id, Robot>) {
    forall r | r in robots :: robots[r].lastSeenCommandSequence <= MAX_SAFE_INTEGER
  }

  predicate MissionsReadable(missions: map<Id, Mission>) {
    forall m | m in missions ::
      OptSafe(missions[m].lastCommandSequence) && OptSafe(missions[m].lastAcknowledgedCommandSequence)
  }

  predicate CountersReadable(next: map<Id, int>) {
    forall r | r in next :: -MAX_SAFE_INTEGER <= next[r] <= MAX_SAFE_INTEGER
  }

  /** The numbers that the repository checks when it reads the tables; it throws on one that is not safe. */
  predicate Readable(s: DomainState) {
    RobotsReadable(s.robots) && MissionsReadable(s.missions) && CountersReadable(s.nextSequence)
  }

  /******* Printed JSON *******/

  lemma EscapedUnitClean(c: Unit)
    ensures Plain(EscapeUnit(c)) || (EscapeUnit(c) == [c] && c != 0 && !IsHighSurrogate(c) && !IsLowSurrogate(c))
    ensures Clean(EscapeUnit(c))
  {
  }

  lemma {:induction false} EscapeClean(s: Text)
    ensures Clean(Escape(s))
  {
    if s != [] {
      if IsHighSurrogate(s[0]) && 1 < |s| && IsLowSurrogate(s[1]) {
        assert Clean([s[0], s[1]]);
        EscapeClean(s[2..]);
        CleanJoin([s[0], s[1]], Escape(s[2..]));
      } else {
        EscapedUnitClean(s[0]);
        EscapeClean(s[1..]);
        CleanJoin(EscapeUnit(s[0]), Escape(s[1..]));
      }
    }
  }

  lemma QuoteClean(s: Text)
    ensures Clean(Quote(s))
  {
    hide Clean;
    assert Clean([34]) by {
      PlainIsClean([34]);
    }
    EscapeClean(s);
    CleanJoin([34], Escape(s));
    CleanJoin([34] + Escape(s), [34]);
  }

  lemma {:induction false} JoinClean(ts: seq<Text>)
    requires forall i | 0 <= i < |ts| :: Clean(ts[i])
    ensures Clean(Join(ts))
  {
    hide Clean;
    if ts == [] {
      PlainIsClean([]);
    } else if 1 < |ts| {
      JoinClean(ts[1..]);
      PlainIsClean([44]);
      CleanJoin(ts[0], [44]);
      CleanJoin(ts[0] + [44], Join(ts[1..]));
    }
  }

  lemma {:induction false} EntriesClean(ms: seq<Member<Text>>)
    requires forall i | 0 <= i < |ms| :: Clean(ms[i].value)
    ensures forall i | 0 <= i < |Entries(ms)| :: Clean(Entries(ms)[i])
  {
    hide Clean, Quote;
    if ms != [] {
      EntriesClean(ms[1..]);
      QuoteClean(ms[0].key);
      PlainIsClean([58]);
      CleanJoin(Quote(ms[0].key), [58]);
      CleanJoin(Quote(ms[0].key) + [58], ms[0].value);
    }
  }

  lemma SortedValues(ms: seq<Member<Text>>, less: Order)
    requires forall i | 0 <= i < |ms| :: Clean(ms[i].value)
    ensures forall i | 0 <= i < |Sort(ms, less)| :: Clean(Sort(ms, less)[i].value)
  {
    hide Clean;
    SortElements(ms, less);
    forall i | 0 <= i < |Sort(ms, less)| ensures Clean(Sort(ms, less)[i].value) {
      assert Sort(ms, less)[i] in multiset(ms);
    }
  }

  lemma Bracketed(open: Unit, t: Text, close: Unit)
    requires 0 < open < 0xD800 && 0 < close < 0xD800 && Clean(t)
    ensures Clean([open] + t + [close])
  {
    hide Clean;
    PlainIsClean([open]);
    PlainIsClean([close]);
    CleanJoin([open], t);
    CleanJoin([open] + t, [close]);
  }

  lemma ArrayClean(items: seq<Json>, less: Order)
    requires forall i | 0 <= i < |PrintItems(items, less)| :: Clean(PrintItems(items, less)[i])
    ensures Clean(Print(JArray(items), less))
  {
    hide Clean, Join;
    JoinClean(PrintItems(items, less));
    Bracketed(91, Join(PrintItems(items, less)), 93);
  }

  lemma ObjectClean(ms: seq<Member<Json>>, less: Order)
    requires forall i | 0 <= i < |PrintMembers(ms, less)| :: Clean(PrintMembers(ms, less)[i].value)
    ensures Clean(Print(JObject(ms), less))
  {
    hide Clean, Join, Sort, Entries;
    var sorted := Sort(PrintMembers(ms, less), less);
    SortedValues(PrintMembers(ms, less), less);
    EntriesClean(sorted);
    JoinClean(Entries(sorted));
    Bracketed(123, Join(Entries(sorted)), 125);
  }

  lemma ScalarClean(v: Json, less: Order)
    requires !v.JArray? && !v.JObject?
    ensures Clean(Print(v, less))
  {
    hide Clean, Quote, IsNumberText, IsNumberTail, IsExponent, SkipDigits;
    match v
    case JNull => PlainIsClean(NULL);
    case JBool(b) => PlainIsClean(if b then TRUE else FALSE);
    case JNumber(n) => PlainIsClean(n);
    case JString(s) => QuoteClean(s);
  }

  /** Whatever the tree holds, its printed text can be stored. */
  lemma {:induction false} PrintClean(v: Json, less: Order)
    ensures Clean(Print(v, less))
    decreases v, 0
  {
    hide Clean, Print, PrintItems, PrintMembers;
    match v
    case JArray(items) =>
      PrintedItems(items, less);
      ArrayClean(items, less);
    case JObject(ms) =>
      PrintedMembers(ms, less);
      ObjectClean(ms, less);
    case _ => ScalarClean(v, less);
  }

  lemma {:induction false} PrintedItems(items: seq<Json>, less: Order)
    ensures forall i | 0 <= i < |PrintItems(items, less)| :: Clean(PrintItems(items, less)[i])
    decreases items, 1
  {
    hide Clean;
    if items != [] {
      PrintClean(items[0], less);
      PrintedItems(items[1..], less);
    }
  }

  lemma {:induction false} PrintedMembers(ms: seq<Member<Json>>, less: Order)
    ensures forall i | 0 <= i < |PrintMembers(ms, less)| :: Clean(PrintMembers(ms, less)[i].value)
    decreases ms, 1
  {
    hide Clean;
    if ms != [] {
      PrintClean(ms[0].value, less);
      PrintedMembers(ms[1..], less);
    }
  }
}
