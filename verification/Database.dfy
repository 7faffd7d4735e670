/** The tables behind the repository: statements, foreign keys, and the replacement of the whole state. */
module Database {
  import opened Texts
  import opened FleetState
  import opened Columns
  import opened Outbox

  /******* Tables *******/

  /** An edge fact keeps the raw ids it reported and, where the target row exists, a resolved reference to it. */
  datatype AckRow = AckRow(ack: Ack, missionId: Option<Id>, resolvedCommand: Option<Id>, resolvedMission: Option<Id>)
  datatype TelemetryRow = TelemetryRow(report: TelemetryReport, resolvedRobot: Option<Id>, resolvedMission: Option<Id>)
  datatype SessionRow = SessionRow(robotId: Id, edgeSessionId: Id, resolvedRobot: Option<Id>)

  datatype Bookmarks = Bookmarks(
    processedEventIds: seq<Id>, processedAckIds: seq<Id>, processedSessionIds: seq<Id>,
    nextSequence: map<Id, int>, domainEventIds: seq<Text>, auditEventIds: seq<Text>)

  datatype Tables = Tables(
    robots: map<Id, Robot>, missions: map<Id, Mission>, commands: map<Id, Command>,
    idempotencyKeys: map<Id, IdempotencyRecord>, domainEvents: seq<DomainEvent>, auditEvents: seq<AuditEvent>,
    acks: map<Id, AckRow>, telemetry: map<Id, TelemetryRow>, sessions: map<Id, SessionRow>,
    bookmarks: Option<Bookmarks>, outbox: seq<OutboxRecord>)

  const EMPTY_TABLES := Tables(map[], map[], map[], map[], [], [], map[], map[], map[], None, [])

  /******* Constraints *******/

  predicate RefersTo<V>(id: Option<Id>, rows: map<Id, V>) {
    id.Some? ==> id.value in rows
  }

  predicate MissionsRefer(missions: map<Id, Mission>, robots: map<Id, Robot>) {
    forall m | m in missions :: missions[m].robotId in robots
  }

  predicate CommandsRefer(commands: map<Id, Command>, missions: map<Id, Mission>, robots: map<Id, Robot>) {
    forall c | c in commands :: commands[c].missionId in missions && commands[c].robotId in robots
  }

  /** `UNIQUE (robot_id, sequence)` and `CHECK (sequence > 0)`. */
  predicate SequencesUnique(commands: map<Id, Command>) {
    && (forall c | c in commands :: 0 < commands[c].sequence)
    && (forall b, c | b in commands && c in commands && b != c && commands[b].robotId == commands[c].robotId ::
          commands[b].sequence != commands[c].sequence)
  }

  predicate RecordsRefer(records: map<Id, IdempotencyRecord>, missions: map<Id, Mission>,
                               commands: map<Id, Command>) {
    forall k | k in records :: records[k].missionId in missions && records[k].commandId in commands
  }

  predicate EventIdsUnique(events: seq<DomainEvent>) {
    forall i, j | 0 <= i < j < |events| :: events[i].eventId != events[j].eventId
  }

  predicate AuditIdsUnique(events: seq<AuditEvent>) {
    forall i, j | 0 <= i < j < |events| :: events[i].auditEventId != events[j].auditEventId
  }

  predicate AcksRefer(acks: map<Id, AckRow>, commands: map<Id, Command>, missions: map<Id, Mission>) {
    forall a | a in acks :: RefersTo(acks[a].resolvedCommand, commands) && RefersTo(acks[a].resolvedMission, missions)
  }

  predicate TelemetryRefers(telemetry: map<Id, TelemetryRow>, robots: map<Id, Robot>, missions: map<Id, Mission>) {
    forall e | e in telemetry ::
      RefersTo(telemetry[e].resolvedRobot, robots) && RefersTo(telemetry[e].resolvedMission, missions)
  }

  predicate SessionsRefer(sessions: map<Id, SessionRow>, robots: map<Id, Robot>) {
    forall x | x in sessions :: RefersTo(sessions[x].resolvedRobot, robots)
  }

  /** Every constraint of the schema that relates rows; the database checks them after each statement. */
  predicate Constraints(t: Tables) {
    && MissionsRefer(t.missions, t.robots)
    && CommandsRefer(t.commands, t.missions, t.robots)
    && SequencesUnique(t.commands)
    && RecordsRefer(t.idempotencyKeys, t.missions, t.commands)
    && EventIdsUnique(t.domainEvents)
    && AuditIdsUnique(t.auditEvents)
    && AcksRefer(t.acks, t.commands, t.missions)
    && TelemetryRefers(t.telemetry, t.robots, t.missions)
    && SessionsRefer(t.sessions, t.robots)
  }

  /******* Columns *******/

  predicate OutboxFits(r: OutboxRecord) {
    Clean(r.aggregateId) && Clean(r.correlationId) && OptClean(r.causationId) && Clean(r.dedupeKey)
    && match r.payload
       case DomainPayload(e) => EventClean(e)
       case AuditPayload(e) => AuditClean(e)
  }

  predicate OutboxesFit(records: seq<OutboxRecord>) {
    forall i | 0 <= i < |records| :: OutboxFits(records[i])
  }

  predicate BookmarksFit(b: Bookmarks) {
    NoNuls(b.processedEventIds) && NoNuls(b.processedAckIds) && NoNuls(b.processedSessionIds)
    && CountersFit(b.nextSequence) && NoNuls(b.domainEventIds) && NoNuls(b.auditEventIds)
  }

  function Utf8Texts(ts: seq<Text>): (r: seq<Text>)
    ensures |r| == |ts| && forall i | 0 <= i < |ts| :: r[i] == Utf8(ts[i])
  {
    seq(|ts|, i requires 0 <= i < |ts| => Utf8(ts[i]))
  }

  function Utf8Bookmarks(b: Bookmarks): Bookmarks {
    Bookmarks(Utf8Ids(b.processedEventIds), Utf8Ids(b.processedAckIds), Utf8Ids(b.processedSessionIds),
              b.nextSequence, Utf8Texts(b.domainEventIds), Utf8Texts(b.auditEventIds))
  }

  /******* Statements *******/

  datatype Statement =
    | DeleteBookmarks | DeleteIdempotencyKeys | DeleteAuditEvents | DeleteDomainEvents
    | DetachAcks | DetachTelemetry | DetachSessions
    | DeleteCommands | DeleteMissions | DeleteRobots
    | InsertRobot(robot: Robot) | InsertMission(mission: Mission) | InsertCommand(command: Command)
    | InsertDomainEvent(event: DomainEvent) | InsertAuditEvent(audit: AuditEvent)
    | InsertOutboxRecord(record: OutboxRecord) | InsertIdempotencyKey(key: IdempotencyRecord)
    | ResolveAckCommands | ResolveAckMissions | ResolveTelemetryRobots | ResolveTelemetryMissions | ResolveSessions
    | InsertBookmarks(bookmarks: Bookmarks)

  function DetachedAcks(acks: map<Id, AckRow>): map<Id, AckRow> {
    map a | a in acks :: acks[a].(resolvedCommand := None, resolvedMission := None)
  }

  function DetachedTelemetry(telemetry: map<Id, TelemetryRow>): map<Id, TelemetryRow> {
    map e | e in telemetry :: telemetry[e].(resolvedRobot := None, resolvedMission := None)
  }

  function DetachedSessions(sessions: map<Id, SessionRow>): map<Id, SessionRow> {
    map x | x in sessions :: sessions[x].(resolvedRobot := None)
  }

  /** `UPDATE ... FROM target WHERE raw = target.id`: rows without a matching target keep what they had. */
  function Resolve<V>(raw: Option<Id>, rows: map<Id, V>, before: Option<Id>): Option<Id> {
    if raw.Some? && raw.value in rows then raw else before
  }

  function WithCommands(acks: map<Id, AckRow>, commands: map<Id, Command>): map<Id, AckRow> {
    map a | a in acks ::
      acks[a].(resolvedCommand := Resolve(Some(acks[a].ack.commandId), commands, acks[a].resolvedCommand))
  }

  function WithMissions(acks: map<Id, AckRow>, missions: map<Id, Mission>): map<Id, AckRow> {
    map a | a in acks :: acks[a].(resolvedMission := Resolve(acks[a].missionId, missions, acks[a].resolvedMission))
  }

  function TelemetryWithRobots(telemetry: map<Id, TelemetryRow>, robots: map<Id, Robot>): map<Id, TelemetryRow> {
    map e | e in telemetry ::
      telemetry[e].(resolvedRobot := Resolve(Some(telemetry[e].report.robotId), robots, telemetry[e].resolvedRobot))
  }

  function TelemetryWithMissions(telemetry: map<Id, TelemetryRow>, missions: map<Id, Mission>)
    : map<Id, TelemetryRow>
  {
    map e | e in telemetry ::
      telemetry[e].(resolvedMission :=
                      Resolve(telemetry[e].report.currentMissionId, missions, telemetry[e].resolvedMission))
  }

  function WithRobots(sessions: map<Id, SessionRow>, robots: map<Id, Robot>): map<Id, SessionRow> {
    map x | x in sessions ::
      sessions[x].(resolvedRobot := Resolve(Some(sessions[x].robotId), robots, sessions[x].resolvedRobot))
  }

  /** What a statement does to the rows, constraints aside. */
  function After(t: Tables, s: Statement): Tables {
    match s
    case DeleteBookmarks => t.(bookmarks := None)
    case DeleteIdempotencyKeys => t.(idempotencyKeys := map[])
    case DeleteAuditEvents => t.(auditEvents := [])
    case DeleteDomainEvents => t.(domainEvents := [])
    case DetachAcks => t.(acks := DetachedAcks(t.acks))
    case DetachTelemetry => t.(telemetry := DetachedTelemetry(t.telemetry))
    case DetachSessions => t.(sessions := DetachedSessions(t.sessions))
    case DeleteCommands => t.(commands := map[])
    case DeleteMissions => t.(missions := map[])
    case DeleteRobots => t.(robots := map[])
    case InsertRobot(r) => t.(robots := t.robots[r.robotId := r])
    case InsertMission(m) => t.(missions := t.missions[m.missionId := m])
    case InsertCommand(c) => t.(commands := t.commands[c.commandId := c])
    case InsertDomainEvent(e) => t.(domainEvents := t.domainEvents + [e])
    case InsertAuditEvent(e) => t.(auditEvents := t.auditEvents + [e])
    case InsertOutboxRecord(r) =>
      if KeyTaken(t.outbox, r.dedupeKey) then t else t.(outbox := t.outbox + [r])
    case InsertIdempotencyKey(k) => t.(idempotencyKeys := t.idempotencyKeys[k.idempotencyKey := k])
    case ResolveAckCommands => t.(acks := WithCommands(t.acks, t.commands))
    case ResolveAckMissions => t.(acks := WithMissions(t.acks, t.missions))
    case ResolveTelemetryRobots => t.(telemetry := TelemetryWithRobots(t.telemetry, t.robots))
    case ResolveTelemetryMissions => t.(telemetry := TelemetryWithMissions(t.telemetry, t.missions))
    case ResolveSessions => t.(sessions := WithRobots(t.sessions, t.robots))
    case InsertBookmarks(b) => t.(bookmarks := Some(Utf8Bookmarks(b)))
  }

  /** The primary or unique key of an inserted row is already taken. */
  predicate KeyConflict(t: Tables, s: Statement) {
    match s
    case InsertRobot(r) => r.robotId in t.robots
    case InsertMission(m) => m.missionId in t.missions
    case InsertCommand(c) => c.commandId in t.commands
    case InsertIdempotencyKey(k) => k.idempotencyKey in t.idempotencyKeys
    case InsertBookmarks(_) => t.bookmarks.Some?
    case _ => false
  }

  /** Every parameter of the statement has a form that its column accepts. */
  predicate Fits(s: Statement) {
    match s
    case InsertRobot(r) => RobotFits(r)
    case InsertMission(m) => MissionFits(m)
    case InsertCommand(c) => CommandFits(c)
    case InsertDomainEvent(e) => EventFits(e)
    case InsertAuditEvent(e) => AuditFits(e)
    case InsertOutboxRecord(r) => OutboxFits(r)
    case InsertIdempotencyKey(k) => RecordFits(k)
    case InsertBookmarks(b) => BookmarksFit(b)
    case _ => true
  }

  /** The statement succeeds; otherwise the database raises an error and leaves the tables alone. */
  predicate Executes(t: Tables, s: Statement) {
    Fits(s) && !KeyConflict(t, s) && Constraints(After(t, s))
  }

  /******* Replacing the state *******/

  datatype Status = Done | Violated {
    predicate IsFailure() { Violated? }

    function PropagateFailure(): Status { this }
  }

  function Detached(t: Tables): Tables {
    t.(acks := DetachedAcks(t.acks), telemetry := DetachedTelemetry(t.telemetry),
       sessions := DetachedSessions(t.sessions))
  }

  /** Only the fact logs, detached, and the outbox survive. */
  function Cleared(t: Tables): Tables {
    EMPTY_TABLES.(acks := DetachedAcks(t.acks), telemetry := DetachedTelemetry(t.telemetry),
                  sessions := DetachedSessions(t.sessions), outbox := t.outbox)
  }

  function Resolved(t: Tables): Tables {
    t.(acks := WithMissions(WithCommands(t.acks, t.commands), t.missions),
       telemetry := TelemetryWithMissions(TelemetryWithRobots(t.telemetry, t.robots), t.missions),
       sessions := WithRobots(t.sessions, t.robots))
  }

  lemma ResolvedInSteps(t: Tables)
    ensures After(After(After(After(After(t, ResolveAckCommands), ResolveAckMissions), ResolveTelemetryRobots),
                        ResolveTelemetryMissions), ResolveSessions) == Resolved(t)
  {
    hide WithCommands, WithMissions, TelemetryWithRobots, TelemetryWithMissions, WithRobots;
  }

  lemma UpdatedAcksRefer(acks: map<Id, AckRow>, commands: map<Id, Command>, missions: map<Id, Mission>)
    requires AcksRefer(acks, commands, missions)
    ensures AcksRefer(DetachedAcks(acks), commands, missions)
    ensures AcksRefer(WithCommands(acks, commands), commands, missions)
    ensures AcksRefer(WithMissions(acks, missions), commands, missions)
  {
  }

  lemma UpdatedTelemetryRefers(telemetry: map<Id, TelemetryRow>, robots: map<Id, Robot>, missions: map<Id, Mission>)
    requires TelemetryRefers(telemetry, robots, missions)
    ensures TelemetryRefers(DetachedTelemetry(telemetry), robots, missions)
    ensures TelemetryRefers(TelemetryWithRobots(telemetry, robots), robots, missions)
    ensures TelemetryRefers(TelemetryWithMissions(telemetry, missions), robots, missions)
  {
  }

  lemma UpdatedSessionsRefer(sessions: map<Id, SessionRow>, robots: map<Id, Robot>)
    requires SessionsRefer(sessions, robots)
    ensures SessionsRefer(DetachedSessions(sessions), robots)
    ensures SessionsRefer(WithRobots(sessions, robots), robots)
  {
  }

  /** Detaching and resolving never break a reference. */
  lemma FactUpdatesExecute(t: Tables, s: Statement)
    requires Constraints(t)
    requires s.DetachAcks? || s.DetachTelemetry? || s.DetachSessions? || s.ResolveAckCommands?
             || s.ResolveAckMissions? || s.ResolveTelemetryRobots? || s.ResolveTelemetryMissions? || s.ResolveSessions?
    ensures Executes(t, s)
  {
    hide MissionsRefer, CommandsRefer, SequencesUnique, RecordsRefer, EventIdsUnique, AuditIdsUnique;
    hide AcksRefer, TelemetryRefers, SessionsRefer, DetachedAcks, WithCommands, WithMissions, DetachedTelemetry;
    hide TelemetryWithRobots, TelemetryWithMissions, DetachedSessions, WithRobots;
    UpdatedAcksRefer(t.acks, t.commands, t.missions);
    UpdatedTelemetryRefers(t.telemetry, t.robots, t.missions);
    UpdatedSessionsRefer(t.sessions, t.robots);
  }

  /** Nothing refers to bookmarks, idempotency keys or the logs. */
  lemma LogDeletesExecute(t: Tables, s: Statement)
    requires Constraints(t)
    requires s.DeleteBookmarks? || s.DeleteIdempotencyKeys? || s.DeleteAuditEvents? || s.DeleteDomainEvents?
    ensures Executes(t, s)
  {
    hide MissionsRefer, CommandsRefer, SequencesUnique, AcksRefer, TelemetryRefers, SessionsRefer;
  }

  lemma DetachedRefersToNothing(t: Tables)
    requires Detached(t) == t
    ensures forall a | a in t.acks :: t.acks[a].resolvedCommand == None && t.acks[a].resolvedMission == None
    ensures forall e | e in t.telemetry ::
              t.telemetry[e].resolvedRobot == None && t.telemetry[e].resolvedMission == None
    ensures forall x | x in t.sessions :: t.sessions[x].resolvedRobot == None
  {
    forall a | a in t.acks ensures t.acks[a].resolvedCommand == None && t.acks[a].resolvedMission == None {
      assert t.acks[a] == DetachedAcks(t.acks)[a];
    }
    forall e | e in t.telemetry ensures t.telemetry[e].resolvedRobot == None && t.telemetry[e].resolvedMission == None {
      assert t.telemetry[e] == DetachedTelemetry(t.telemetry)[e];
    }
    forall x | x in t.sessions ensures t.sessions[x].resolvedRobot == None {
      assert t.sessions[x] == DetachedSessions(t.sessions)[x];
    }
  }

  /** Once the facts are detached and nothing below refers to them, the entity tables can be emptied. */
  lemma EntityDeletesExecute(t: Tables, s: Statement)
    requires Constraints(t) && Detached(t) == t && t.idempotencyKeys == map[]
    requires || s.DeleteCommands?
             || (s.DeleteMissions? && t.commands == map[])
             || (s.DeleteRobots? && t.commands == map[] && t.missions == map[])
    ensures Executes(t, s)
  {
    DetachedRefersToNothing(t);
    hide Detached, DetachedAcks, DetachedTelemetry, DetachedSessions, EventIdsUnique, AuditIdsUnique;
  }

  /** A new parent breaks no reference: a robot is accepted exactly when its columns accept it. */
  lemma RobotInserts(t: Tables, r: Robot)
    requires Constraints(t) && r.robotId !in t.robots
    ensures Executes(t, InsertRobot(r)) <==> RobotFits(r)
  {
    hide RobotFits, SequencesUnique, RecordsRefer, EventIdsUnique, AuditIdsUnique, AcksRefer;
  }

  /** A mission is accepted exactly when its columns accept it and its robot is there. */
  lemma MissionInserts(t: Tables, m: Mission)
    requires Constraints(t) && m.missionId !in t.missions
    ensures Executes(t, InsertMission(m)) <==> MissionFits(m) && m.robotId in t.robots
  {
    hide MissionFits, SequencesUnique, EventIdsUnique, AuditIdsUnique, SessionsRefer;
    assert After(t, InsertMission(m)).missions[m.missionId] == m;
  }

  /** A command is accepted exactly when its columns, its mission, its robot and its number are. */
  lemma CommandAccepted(t: Tables, c: Command)
    requires Constraints(t) && c.commandId !in t.commands
    ensures Executes(t, InsertCommand(c)) <==>
              && CommandFits(c) && c.missionId in t.missions && c.robotId in t.robots && 1 <= c.sequence
              && forall b | b in t.commands && t.commands[b].robotId == c.robotId ::
                   t.commands[b].sequence != c.sequence
  {
    hide CommandFits, MissionsRefer, EventIdsUnique, AuditIdsUnique, TelemetryRefers, SessionsRefer;
    var n := After(t, InsertCommand(c));
    assert n.commands[c.commandId] == c;
    assert forall b | b in t.commands :: b in n.commands && n.commands[b] == t.commands[b];
    hide After;
  }

  /** The entity tables can be emptied exactly when no row refers to them any more. */
  lemma CommandsDeleted(t: Tables)
    requires Constraints(t)
    ensures Executes(t, DeleteCommands) <==>
              t.idempotencyKeys == map[] && forall a | a in t.acks :: t.acks[a].resolvedCommand == None
  {
    hide MissionsRefer, EventIdsUnique, AuditIdsUnique, TelemetryRefers, SessionsRefer;
  }

  lemma MissionsDeleted(t: Tables)
    requires Constraints(t)
    ensures Executes(t, DeleteMissions) <==>
              && t.commands == map[] && t.idempotencyKeys == map[]
              && (forall a | a in t.acks :: t.acks[a].resolvedMission == None)
              && forall e | e in t.telemetry :: t.telemetry[e].resolvedMission == None
  {
    hide SequencesUnique, EventIdsUnique, AuditIdsUnique, SessionsRefer;
  }

  lemma RobotsDeleted(t: Tables)
    requires Constraints(t)
    ensures Executes(t, DeleteRobots) <==>
              && t.missions == map[] && t.commands == map[]
              && (forall e | e in t.telemetry :: t.telemetry[e].resolvedRobot == None)
              && forall x | x in t.sessions :: t.sessions[x].resolvedRobot == None
  {
    hide SequencesUnique, EventIdsUnique, AuditIdsUnique, AcksRefer, RecordsRefer;
  }

  lemma MissionRefers(missions: map<Id, Mission>, robots: map<Id, Robot>, m: Id)
    requires m in missions && MissionsRefer(missions, robots)
    ensures missions[m].robotId in robots
  {
  }

  lemma RecordRefers(records: map<Id, IdempotencyRecord>, missions: map<Id, Mission>, commands: map<Id, Command>, k: Id)
    requires k in records && RecordsRefer(records, missions, commands)
    ensures records[k].missionId in missions && records[k].commandId in commands
  {
  }

  predicate CommandsStorable(commands: map<Id, Command>, missions: map<Id, Mission>, robots: map<Id, Robot>) {
    CommandsRefer(commands, missions, robots) && SequencesUnique(commands)
  }

  lemma CommandInserts(t: Tables, c: Command)
    requires Constraints(t) && c.commandId !in t.commands
    ensures After(t, InsertCommand(c)) == t.(commands := t.commands[c.commandId := c])
    ensures Executes(t, InsertCommand(c))
            <==> CommandFits(c) && CommandsStorable(t.commands[c.commandId := c], t.missions, t.robots)
  {
    hide CommandFits, MissionsRefer, CommandsRefer, SequencesUnique, EventIdsUnique, AuditIdsUnique, TelemetryRefers;
    hide SessionsRefer;
  }

  lemma FewerCommandsStorable(some: map<Id, Command>, commands: map<Id, Command>, missions: map<Id, Mission>,
                              robots: map<Id, Robot>)
    requires CommandsStorable(commands, missions, robots)
    requires forall c | c in some :: c in commands && some[c] == commands[c]
    ensures CommandsStorable(some, missions, robots)
  {
  }

  lemma MoreCommandsFit(commands: map<Id, Command>, todo: set<Id>)
    ensures todo == commands.Keys ==> CommandsFit(commands - todo)
  {
  }

  /** One more command: the rows so far fit, and they are storable if all of them are. */
  lemma NextCommand(commands: map<Id, Command>, todo: set<Id>, c: Id, missions: map<Id, Mission>,
                    robots: map<Id, Robot>)
    requires c in todo && c in commands && CommandsFit(commands - todo)
    ensures (commands - todo)[c := commands[c]] == commands - (todo - {c})
    ensures CommandsFit(commands - (todo - {c})) <==> CommandFits(commands[c])
    ensures CommandsFit(commands) ==> CommandFits(commands[c])
    ensures CommandsStorable(commands, missions, robots) ==>
              CommandsStorable(commands - (todo - {c}), missions, robots)
  {
    hide CommandFits, CommandsStorable;
    var some := commands - (todo - {c});
    assert some[c] == commands[c];
    forall x | x in some && x != c ensures CommandFits(some[x]) {
      assert x in commands - todo;
    }
    if CommandsStorable(commands, missions, robots) {
      FewerCommandsStorable(some, commands, missions, robots);
    }
  }

  lemma RecordInserts(t: Tables, k: IdempotencyRecord)
    requires Constraints(t) && k.idempotencyKey !in t.idempotencyKeys
    ensures Executes(t, InsertIdempotencyKey(k))
            <==> RecordFits(k) && k.missionId in t.missions && k.commandId in t.commands
  {
    hide RecordFits, MissionsRefer, CommandsRefer, SequencesUnique, EventIdsUnique, AuditIdsUnique, AcksRefer;
    hide TelemetryRefers, SessionsRefer;
    assert After(t, InsertIdempotencyKey(k)).idempotencyKeys[k.idempotencyKey] == k;
  }

  lemma LogInserts(t: Tables, s: Statement)
    requires Constraints(t)
    ensures s.InsertDomainEvent? ==>
              (Executes(t, s) <==> EventFits(s.event) && EventIdsUnique(t.domainEvents + [s.event]))
    ensures s.InsertAuditEvent? ==>
              (Executes(t, s) <==> AuditFits(s.audit) && AuditIdsUnique(t.auditEvents + [s.audit]))
    ensures s.InsertOutboxRecord? ==> (Executes(t, s) <==> OutboxFits(s.record))
    ensures s.InsertBookmarks? ==> (Executes(t, s) <==> BookmarksFit(s.bookmarks) && t.bookmarks == None)
  {
    hide EventFits, AuditFits, OutboxFits, BookmarksFit;
    hide MissionsRefer, CommandsRefer, SequencesUnique, EventIdsUnique, AuditIdsUnique, AcksRefer, TelemetryRefers;
    hide SessionsRefer, RecordsRefer;
  }

  lemma DetachedTwice(t: Tables)
    ensures Detached(Detached(t)) == Detached(t)
  {
  }

  lemma ConstrainedRows(t: Tables)
    requires Constraints(t)
    ensures MissionsRefer(t.missions, t.robots)
    ensures CommandsStorable(t.commands, t.missions, t.robots)
    ensures RecordsRefer(t.idempotencyKeys, t.missions, t.commands)
  {
  }

  function DomainIds(events: seq<DomainEvent>): (ids: seq<Text>)
    ensures |ids| == |events| && forall i | 0 <= i < |ids| :: ids[i] == events[i].eventId
  {
    seq(|events|, i requires 0 <= i < |events| => events[i].eventId)
  }

  function AuditIds(events: seq<AuditEvent>): (ids: seq<Text>)
    ensures |ids| == |events| && forall i | 0 <= i < |ids| :: ids[i] == events[i].auditEventId
  {
    seq(|events|, i requires 0 <= i < |events| => events[i].auditEventId)
  }

  function BookmarksOf(s: DomainState): Bookmarks {
    Bookmarks(s.processedEventIds, s.processedAckIds, s.processedSessionIds, s.nextSequence,
              DomainIds(s.domainEvents), AuditIds(s.auditEvents))
  }

  /**
   The schema accepts the state: its columns accept every value, nothing it refers to is missing, and no key
   that must be unique is repeated.
   */
  predicate Storable(s: DomainState) {
    && RowsFit(s)
    && MissionsRefer(s.missions, s.robots)
    && CommandsStorable(s.commands, s.missions, s.robots)
    && RecordsRefer(s.idempotencyRecords, s.missions, s.commands)
    && EventIdsUnique(s.domainEvents)
    && AuditIdsUnique(s.auditEvents)
  }

  /** Once the events fit, their ids add nothing to what the bookmarks need, and are stored as they are. */
  lemma BookmarksExact(s: DomainState)
    requires EventsFit(s.domainEvents) && AuditsFit(s.auditEvents)
    ensures BookmarksFit(BookmarksOf(s)) <==>
              && NoNuls(s.processedEventIds) && NoNuls(s.processedAckIds) && NoNuls(s.processedSessionIds)
              && CountersFit(s.nextSequence)
    ensures Utf8Bookmarks(BookmarksOf(s)) == BookmarksOf(Written(s))
  {
    var domain, audit := DomainIds(s.domainEvents), AuditIds(s.auditEvents);
    hide NoNul, Utf8, PayloadClean, WellPaired, Utf8Ids;
    forall i | 0 <= i < |domain| ensures NoNul(domain[i]) && Utf8(domain[i]) == domain[i] {
      assert EventFits(s.domainEvents[i]);
      Utf8Exact(domain[i]);
    }
    forall i | 0 <= i < |audit| ensures NoNul(audit[i]) && Utf8(audit[i]) == audit[i] {
      assert AuditFits(s.auditEvents[i]);
      Utf8Exact(audit[i]);
    }
    assert Utf8Texts(domain) == domain && Utf8Texts(audit) == audit;
  }

  /** The tables after the replacement: the new state, the old facts resolved against it, a longer outbox. */
  function Replaced(t: Tables, s: DomainState, records: seq<OutboxRecord>): Tables {
    Tables(s.robots, s.missions, s.commands, s.idempotencyRecords, s.domainEvents, s.auditEvents,
           WithMissions(WithCommands(DetachedAcks(t.acks), s.commands), s.missions),
           TelemetryWithMissions(TelemetryWithRobots(DetachedTelemetry(t.telemetry), s.robots), s.missions),
           WithRobots(DetachedSessions(t.sessions), s.robots),
           Some(BookmarksOf(Written(s))), Enqueued(t.outbox, records))
  }

  /******* The queued records fit when their events do *******/

  lemma KeyClean(prefix: Text, id: Text, digest: Text)
    requires Plain(prefix) && Clean(id) && IsHex(digest)
    ensures Clean(prefix + id + COLON + digest)
  {
    assert Plain(digest) && Plain(COLON);
    PlainIsClean(prefix);
    PlainIsClean(digest);
    PlainIsClean(COLON);
    hide Clean, Plain, IsHex;
    CleanJoin(prefix, id);
    CleanJoin(prefix + id, COLON);
    CleanJoin(prefix + id + COLON, digest);
  }

  lemma DomainRecordFits(e: DomainEvent, enc: Encoding, digest: Digest)
    requires EventClean(e) && IsDigest(digest)
    ensures OutboxFits(DomainRecord(e, DomainKey(e, enc, digest)))
  {
    assert Plain(DOMAIN_KEY);
    hide Plain;
    hide Clean, PayloadClean, IsHex, IsDigest;
    DigestIsHex(digest, enc.domain(e));
    KeyClean(DOMAIN_KEY, e.eventId, digest.Of(enc.domain(e)));
  }

  lemma AuditRecordFits(e: AuditEvent, enc: Encoding, digest: Digest)
    requires AuditClean(e) && IsDigest(digest)
    ensures OutboxFits(AuditRecord(e, AuditKey(e, enc, digest)))
  {
    assert Plain(AUDIT_KEY);
    hide Plain;
    hide Clean, PayloadClean, IsHex, IsDigest;
    DigestIsHex(digest, enc.audit(e));
    KeyClean(AUDIT_KEY, e.auditEventId, digest.Of(enc.audit(e)));
  }

  lemma {:induction false} NewDomainFits(events: seq<DomainEvent>, persisted: set<Text>, enc: Encoding,
                                         digest: Digest)
    requires EventsFit(events) && IsDigest(digest)
    ensures OutboxesFit(NewDomain(events, persisted, enc, digest))
  {
    hide EventClean, OutboxFits, DomainRecord, DomainKey, IsDigest;
    if events != [] {
      NewDomainFits(events[..|events| - 1], persisted, enc, digest);
      DomainRecordFits(events[|events| - 1], enc, digest);
    }
  }

  lemma {:induction false} NewAuditFits(events: seq<AuditEvent>, persisted: set<Text>, enc: Encoding,
                                        digest: Digest)
    requires AuditsFit(events) && IsDigest(digest)
    ensures OutboxesFit(NewAudit(events, persisted, enc, digest))
  {
    hide AuditClean, OutboxFits, AuditRecord, AuditKey, IsDigest;
    if events != [] {
      NewAuditFits(events[..|events| - 1], persisted, enc, digest);
      AuditRecordFits(events[|events| - 1], enc, digest);
    }
  }

  /** So the outbox never adds a condition of its own. */
  lemma NewRecordsFit(s: DomainState, n: DomainState, stored: Encoding, memory: Encoding, digest: Digest)
    requires RowsFit(n) && IsDigest(digest)
    ensures OutboxesFit(NewRecords(s, n, stored, memory, digest))
  {
    var persisted := PersistedKeys(s, stored, digest);
    NewDomainFits(n.domainEvents, persisted, memory, digest);
    NewAuditFits(n.auditEvents, persisted, memory, digest);
    hide NewDomain, NewAudit, OutboxFits, PersistedKeys;
  }

  predicate Matches<V>(resolved: Option<Id>, raw: Option<Id>, rows: map<Id, V>) {
    resolved == if raw.Some? && raw.value in rows then raw else None
  }

  ghost predicate AcksFollow(before: map<Id, AckRow>, after: map<Id, AckRow>, s: DomainState) {
    && after.Keys == before.Keys
    && forall a | a in before ::
         && after[a].ack == before[a].ack && after[a].missionId == before[a].missionId
         && Matches(after[a].resolvedCommand, Some(before[a].ack.commandId), s.commands)
         && Matches(after[a].resolvedMission, before[a].missionId, s.missions)
  }

  ghost predicate TelemetryFollows(before: map<Id, TelemetryRow>, after: map<Id, TelemetryRow>, s: DomainState) {
    && after.Keys == before.Keys
    && forall e | e in before ::
         && after[e].report == before[e].report
         && Matches(after[e].resolvedRobot, Some(before[e].report.robotId), s.robots)
         && Matches(after[e].resolvedMission, before[e].report.currentMissionId, s.missions)
  }

  ghost predicate SessionsFollow(before: map<Id, SessionRow>, after: map<Id, SessionRow>, s: DomainState) {
    && after.Keys == before.Keys
    && forall x | x in before ::
         && after[x].robotId == before[x].robotId && after[x].edgeSessionId == before[x].edgeSessionId
         && Matches(after[x].resolvedRobot, Some(before[x].robotId), s.robots)
  }

  lemma AcksPreserved(acks: map<Id, AckRow>, s: DomainState)
    ensures AcksFollow(acks, WithMissions(WithCommands(DetachedAcks(acks), s.commands), s.missions), s)
  {
  }

  lemma TelemetryPreserved(telemetry: map<Id, TelemetryRow>, s: DomainState)
    ensures TelemetryFollows(
              telemetry,
              TelemetryWithMissions(TelemetryWithRobots(DetachedTelemetry(telemetry), s.robots), s.missions), s)
  {
  }

  lemma SessionsPreserved(sessions: map<Id, SessionRow>, s: DomainState)
    ensures SessionsFollow(sessions, WithRobots(DetachedSessions(sessions), s.robots), s)
  {
  }

  /**
   A replacement loses no acknowledgement, telemetry or session row and keeps what it reported; each resolved
   reference is the raw id exactly when its target row exists, and null otherwise.
   */
  lemma FactsPreserved(t: Tables, s: DomainState, records: seq<OutboxRecord>)
    ensures var n := Replaced(t, s, records);
            AcksFollow(t.acks, n.acks, s) && TelemetryFollows(t.telemetry, n.telemetry, s)
            && SessionsFollow(t.sessions, n.sessions, s)
  {
    hide AcksFollow, TelemetryFollows, SessionsFollow, DetachedAcks, DetachedTelemetry, DetachedSessions;
    hide WithMissions, WithCommands, TelemetryWithMissions, TelemetryWithRobots, WithRobots;
    AcksPreserved(t.acks, s);
    TelemetryPreserved(t.telemetry, s);
    SessionsPreserved(t.sessions, s);
  }

  /** One connection inside a transaction. */
  class Client {
    var tables: Tables

    constructor (t: Tables)
      ensures tables == t
    {
      tables := t;
    }

    method Execute(s: Statement) returns (status: Status)
      modifies this
      ensures status.Done? <==> Executes(old(tables), s)
      ensures tables == if status.Done? then After(old(tables), s) else old(tables)
      ensures status.Done? ==> Constraints(tables)
    {
      if Executes(tables, s) {
        tables := After(tables, s);
        return Done;
      }
      return Violated;
    }

    /** Children before parents, so that no statement leaves a dangling reference. */
    method ClearDomainState() returns (status: Status)
      requires Constraints(tables)
      modifies this
      ensures status.Done? && tables == Cleared(old(tables)) && Constraints(tables)
    {
      hide Constraints, Executes, DetachedAcks, DetachedTelemetry, DetachedSessions;
      LogDeletesExecute(tables, DeleteBookmarks);
      :- Execute(DeleteBookmarks);
      LogDeletesExecute(tables, DeleteIdempotencyKeys);
      :- Execute(DeleteIdempotencyKeys);
      LogDeletesExecute(tables, DeleteAuditEvents);
      :- Execute(DeleteAuditEvents);
      LogDeletesExecute(tables, DeleteDomainEvents);
      :- Execute(DeleteDomainEvents);
      DetachedTwice(tables);
      :- DetachPreservedFactLogReferences();
      EntityDeletesExecute(tables, DeleteCommands);
      :- Execute(DeleteCommands);
      EntityDeletesExecute(tables, DeleteMissions);
      :- Execute(DeleteMissions);
      EntityDeletesExecute(tables, DeleteRobots);
      :- Execute(DeleteRobots);
      return Done;
    }

    method DetachPreservedFactLogReferences() returns (status: Status)
      requires Constraints(tables)
      modifies this
      ensures status.Done? && tables == Detached(old(tables)) && Constraints(tables)
    {
      hide Constraints, Executes, DetachedAcks, DetachedTelemetry, DetachedSessions;
      FactUpdatesExecute(tables, DetachAcks);
      :- Execute(DetachAcks);
      FactUpdatesExecute(tables, DetachTelemetry);
      :- Execute(DetachTelemetry);
      FactUpdatesExecute(tables, DetachSessions);
      :- Execute(DetachSessions);
      return Done;
    }

    method ResolvePreservedFactLogReferences() returns (status: Status)
      requires Constraints(tables)
      modifies this
      ensures status.Done? && tables == Resolved(old(tables)) && Constraints(tables)
    {
      hide Constraints, Executes, After, Resolved;
      ResolvedInSteps(tables);
      FactUpdatesExecute(tables, ResolveAckCommands);
      :- Execute(ResolveAckCommands);
      FactUpdatesExecute(tables, ResolveAckMissions);
      :- Execute(ResolveAckMissions);
      FactUpdatesExecute(tables, ResolveTelemetryRobots);
      :- Execute(ResolveTelemetryRobots);
      FactUpdatesExecute(tables, ResolveTelemetryMissions);
      :- Execute(ResolveTelemetryMissions);
      FactUpdatesExecute(tables, ResolveSessions);
      :- Execute(ResolveSessions);
      return Done;
    }

    method InsertRobots(robots: map<Id, Robot>) returns (status: Status)
      requires Constraints(tables) && tables.robots == map[]
      requires forall r | r in robots :: robots[r].robotId == r
      modifies this
      ensures status.Done? <==> RobotsFit(robots)
      ensures status.Done? ==> tables == old(tables).(robots := robots) && Constraints(tables)
    {
      hide Constraints, Executes, Fits, KeyConflict, RobotFits;
      var todo := robots.Keys;
      while todo != {}
        invariant todo <= robots.Keys && RobotsFit(robots - todo)
        invariant tables == old(tables).(robots := robots - todo) && Constraints(tables)
      {
        var r :| r in todo;
        RobotInserts(tables, robots[r]);
        assert (robots - todo)[r := robots[r]] == robots - (todo - {r});
        :- Execute(InsertRobot(robots[r]));
        todo := todo - {r};
      }
      assert robots - todo == robots;
      return Done;
    }

    method InsertMissions(missions: map<Id, Mission>) returns (status: Status)
      requires Constraints(tables) && tables.missions == map[]
      requires forall m | m in missions :: missions[m].missionId == m
      modifies this
      ensures status.Done? <==> MissionsFit(missions) && MissionsRefer(missions, tables.robots)
      ensures tables.robots == old(tables.robots)
      ensures status.Done? ==> tables == old(tables).(missions := missions) && Constraints(tables)
    {
      hide Constraints, Executes, Fits, KeyConflict, MissionsRefer, MissionFits;
      var todo := missions.Keys;
      while todo != {}
        invariant todo <= missions.Keys && MissionsFit(missions - todo)
        invariant tables == old(tables).(missions := missions - todo) && Constraints(tables)
      {
        var m :| m in todo;
        MissionInserts(tables, missions[m]);
        if MissionsRefer(missions, tables.robots) {
          MissionRefers(missions, tables.robots, m);
        }
        assert (missions - todo)[m := missions[m]] == missions - (todo - {m});
        :- Execute(InsertMission(missions[m]));
        todo := todo - {m};
      }
      assert missions - todo == missions;
      ConstrainedRows(tables);
      return Done;
    }

    method InsertCommands(commands: map<Id, Command>) returns (status: Status)
      requires Constraints(tables) && tables.commands == map[]
      requires forall c | c in commands :: commands[c].commandId == c
      modifies this
      ensures status.Done? <==>
                CommandsFit(commands) && CommandsStorable(commands, old(tables.missions), old(tables.robots))
      ensures status.Done? ==> tables == old(tables).(commands := commands) && Constraints(tables)
    {
      hide Constraints, Executes, After, CommandsStorable, CommandFits, CommandsFit;
      var todo := commands.Keys;
      MoreCommandsFit(commands, todo);
      while todo != {}
        invariant todo <= commands.Keys && CommandsFit(commands - todo)
        invariant tables == old(tables).(commands := commands - todo) && Constraints(tables)
      {
        var c :| c in todo;
        CommandInserts(tables, commands[c]);
        NextCommand(commands, todo, c, tables.missions, tables.robots);
        :- Execute(InsertCommand(commands[c]));
        todo := todo - {c};
      }
      assert commands - todo == commands;
      ConstrainedRows(tables);
      return Done;
    }

    method InsertDomainEvents(events: seq<DomainEvent>) returns (status: Status)
      requires Constraints(tables) && tables.domainEvents == []
      modifies this
      ensures status.Done? <==> EventsFit(events) && EventIdsUnique(events)
      ensures status.Done? ==> tables == old(tables).(domainEvents := events) && Constraints(tables)
    {
      hide Constraints, Executes, Fits, KeyConflict, EventFits;
      for i := 0 to |events|
        invariant tables == old(tables).(domainEvents := events[..i]) && Constraints(tables)
        invariant EventsFit(events[..i]) && EventIdsUnique(events[..i])
      {
        assert events[..i + 1] == events[..i] + [events[i]];
        LogInserts(tables, InsertDomainEvent(events[i]));
        :- Execute(InsertDomainEvent(events[i]));
      }
      assert events[..|events|] == events;
      return Done;
    }

    method InsertAuditEvents(events: seq<AuditEvent>) returns (status: Status)
      requires Constraints(tables) && tables.auditEvents == []
      modifies this
      ensures status.Done? <==> AuditsFit(events) && AuditIdsUnique(events)
      ensures status.Done? ==> tables == old(tables).(auditEvents := events) && Constraints(tables)
    {
      hide Constraints, Executes, Fits, KeyConflict, AuditFits;
      for i := 0 to |events|
        invariant tables == old(tables).(auditEvents := events[..i]) && Constraints(tables)
        invariant AuditsFit(events[..i]) && AuditIdsUnique(events[..i])
      {
        assert events[..i + 1] == events[..i] + [events[i]];
        LogInserts(tables, InsertAuditEvent(events[i]));
        :- Execute(InsertAuditEvent(events[i]));
      }
      assert events[..|events|] == events;
      return Done;
    }

    method InsertOutboxRecords(records: seq<OutboxRecord>) returns (status: Status)
      requires Constraints(tables)
      modifies this
      ensures status.Done? <==> OutboxesFit(records)
      ensures status.Done? ==>
                Constraints(tables) && tables == old(tables).(outbox := Enqueued(old(tables.outbox), records))
    {
      hide Constraints, Executes, Fits, KeyConflict, KeyTaken, OutboxFits;
      for i := 0 to |records|
        invariant OutboxesFit(records[..i])
        invariant tables == old(tables).(outbox := Enqueued(old(tables.outbox), records[..i])) && Constraints(tables)
      {
        assert records[..i + 1][..i] == records[..i];
        LogInserts(tables, InsertOutboxRecord(records[i]));
        :- Execute(InsertOutboxRecord(records[i]));
      }
      assert records[..|records|] == records;
      return Done;
    }

    method InsertIdempotencyRecords(records: map<Id, IdempotencyRecord>) returns (status: Status)
      requires Constraints(tables) && tables.idempotencyKeys == map[]
      requires forall k | k in records :: records[k].idempotencyKey == k
      modifies this
      ensures status.Done? <==>
                RecordsFit(records) && RecordsRefer(records, old(tables.missions), old(tables.commands))
      ensures status.Done? ==> tables == old(tables).(idempotencyKeys := records) && Constraints(tables)
    {
      hide Constraints, Executes, Fits, KeyConflict, RecordsRefer, RecordFits;
      var todo := records.Keys;
      while todo != {}
        invariant todo <= records.Keys && RecordsFit(records - todo)
        invariant tables == old(tables).(idempotencyKeys := records - todo) && Constraints(tables)
      {
        var k :| k in todo;
        RecordInserts(tables, records[k]);
        if RecordsRefer(records, tables.missions, tables.commands) {
          RecordRefers(records, tables.missions, tables.commands, k);
        }
        assert (records - todo)[k := records[k]] == records - (todo - {k});
        :- Execute(InsertIdempotencyKey(records[k]));
        todo := todo - {k};
      }
      assert records - todo == records;
      ConstrainedRows(tables);
      return Done;
    }

    method WriteStateBookmarks(s: DomainState) returns (status: Status)
      requires Constraints(tables) && tables.bookmarks == None
      modifies this
      ensures status.Done? <==> BookmarksFit(BookmarksOf(s))
      ensures status.Done? ==>
                tables == old(tables).(bookmarks := Some(Utf8Bookmarks(BookmarksOf(s)))) && Constraints(tables)
    {
      hide Constraints, Executes, Fits, KeyConflict, BookmarksFit, Utf8Bookmarks;
      LogInserts(tables, InsertBookmarks(BookmarksOf(s)));
      :- Execute(InsertBookmarks(BookmarksOf(s)));
      return Done;
    }

    /** Succeeds exactly when the schema accepts the new state and the queued records. */
    method ReplaceDomainState(s: DomainState, records: seq<OutboxRecord>) returns (status: Status)
      requires Constraints(tables) && KeyedById(s)
      modifies this
      ensures status.Done? <==> Storable(s) && OutboxesFit(records)
      ensures status.Done? ==> tables == Replaced(old(tables), s, records) && Constraints(tables)
    {
      hide Constraints, MissionsRefer, CommandsStorable, RecordsRefer, EventIdsUnique, AuditIdsUnique;
      hide DetachedAcks, DetachedTelemetry, DetachedSessions, WithMissions, WithCommands, TelemetryWithMissions;
      hide TelemetryWithRobots, WithRobots, Enqueued, BookmarksOf, BookmarksFit, Utf8Bookmarks, Written, OutboxesFit;
      hide RobotsFit, MissionsFit, CommandsFit, RecordsFit, EventsFit, AuditsFit, NoNuls, CountersFit;
      :- ClearDomainState();
      :- InsertRobots(s.robots);
      :- InsertMissions(s.missions);
      :- InsertCommands(s.commands);
      :- InsertDomainEvents(s.domainEvents);
      :- InsertAuditEvents(s.auditEvents);
      BookmarksExact(s);
      :- InsertOutboxRecords(records);
      :- InsertIdempotencyRecords(s.idempotencyRecords);
      :- ResolvePreservedFactLogReferences();
      :- WriteStateBookmarks(s);
      return Done;
    }
  }
}
