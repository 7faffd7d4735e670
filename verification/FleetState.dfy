/** The protocol values and the aggregate state that every reducer takes and returns. */
module FleetState {
  import opened Texts
  import opened Json

  type Time = int

  datatype CommandType = GoToPose | CancelMission | PauseMission | ResumeMission | EmergencyStop
  datatype SafetyClass = Normal | Risky | Emergency
  datatype AckStatus = Accepted | Rejected | Expired | Duplicate | Failed
  datatype Lifecycle =
    | CREATED | VALIDATED | REJECTED | SAFETY_BLOCKED | ASSIGNED | DISPATCHED | ACKNOWLEDGED | RUNNING
    | CANCEL_REQUESTED | CANCELLED | SUCCEEDED | FAILED | TIMED_OUT | MANUAL_REVIEW
  datatype OperationalStatus = NOMINAL | DEGRADED_STATUS | RECONNECTING_STATUS | RECONCILING | RECOVERED
  datatype Connection = ONLINE | STALE | DEGRADED | OFFLINE | RECONNECTING
  datatype Health = OK | WARN | ERROR | ESTOP
  datatype Outcome = ResumeRunning | MarkSucceeded | MarkFailed | ManualReview

  datatype Pose2D = Pose2D(x: Number, y: Number, theta: Number)

  datatype Command = Command(
    commandId: Id, missionId: Id, robotId: Id, commandType: CommandType, idempotencyKey: Id,
    sequence: int, issuedAt: Time, expiresAt: Time, requiresAck: bool, safetyClass: SafetyClass,
    correlationId: Id, causationId: Id, payload: JsonTree)

  datatype Ack = Ack(
    ackId: Id, commandId: Id, robotId: Id, status: AckStatus, receivedAt: Time,
    lastSeenCommandSequence: nat, reason: Option<Id>, correlationId: Id, causationId: Id)

  datatype TelemetryReport = TelemetryReport(
    eventId: Id, robotId: Id, observedAt: Time, receivedAt: Time, pose: Pose2D, batteryPercent: real,
    health: Health, connectionState: Connection, currentMissionId: Option<Id>,
    lastAcknowledgedCommandId: Option<Id>, lastSeenCommandSequence: nat, edgeAgentVersion: Id)

  datatype HandshakeReport = HandshakeReport(
    robotId: Id, edgeSessionId: Id, connectedAt: Time, lastSeenCommandSequence: nat,
    lastAcknowledgedCommandId: Option<Id>, reportedMissionId: Option<Id>,
    reportedLifecycle: Option<Lifecycle>, lastTelemetryObservedAt: Time, edgeAgentVersion: Id)

  datatype Hello = Hello(edgeAgentVersion: Option<Id>, lastSeenCommandSequence: Option<nat>)

  datatype Mission = Mission(
    missionId: Id, robotId: Id, lifecycle: Lifecycle, operationalStatus: OperationalStatus,
    targetPose: Option<Pose2D>, createdAt: Time, updatedAt: Time, currentCommandId: Option<Id>,
    lastCommandSequence: Option<int>, lastAcknowledgedCommandId: Option<Id>,
    lastAcknowledgedCommandSequence: Option<nat>, idempotencyKey: Option<Id>, failureReason: Option<FailureReason>)

  datatype Robot = Robot(
    robotId: Id, connectionState: Connection, updatedAt: Time, pose: Option<Pose2D>, health: Option<Health>,
    batteryPercent: Option<real>, activeMissionId: Option<Id>, lastTelemetryObservedAt: Option<Time>,
    lastTelemetryReceivedAt: Option<Time>, lastAcknowledgedCommandId: Option<Id>,
    lastSeenCommandSequence: nat, edgeAgentVersion: Option<Id>)

  datatype IdempotencyRecord = IdempotencyRecord(
    idempotencyKey: Id, payloadSignature: Text, commandId: Id, missionId: Id)

  datatype DispatchRejection =
    | COMMAND_EXPIRED | COMMAND_TTL_INVALID | COMMAND_TYPE_NOT_ALLOWED | COMMAND_PAYLOAD_INVALID
    | DUPLICATE_COMMAND_ID | IDEMPOTENCY_KEY_REUSE_CONFLICT | LOW_BATTERY | RECONCILIATION_IN_PROGRESS
    | ROBOT_ALREADY_ASSIGNED | ROBOT_TELEMETRY_STALE | MISSION_NOT_ACTIVE | UNKNOWN_MISSION

  /** The paths `validateCommandPayload` complains about. */
  datatype PayloadIssue = AtPayload | AtTarget | AtX | AtY | AtTheta | AtReason

  /** What a rejection adds to its reason. */
  datatype RejectionDetails =
    | NoDetails
    | ExistingCommand(existingCommandId: Id)
    | TypeDetails(commandType: CommandType)
    | IssueDetails(issues: seq<PayloadIssue>)
    | ExpiryDetails(expiresAt: Time, now: Time)
    | TtlDetails(issuedAt: Time, expiresAt: Time)
    | ConnectionDetails(connectionState: Option<Connection>)
    | BatteryDetails(batteryPercent: real, threshold: real)
    | ActiveMissionDetails(activeMissionId: Id)

  datatype DecisionReason =
    | UnknownReportedMission | ConflictingMission | ClaimsExpiredCommand | UnexplainedGap
    | ReportedSucceeded | ReportedFailed | StatesMatch

  /** Why a mission stopped: the platform refused it, the edge said so, it timed out, or a reconnect decided. */
  datatype FailureReason =
    | Refused(rejection: DispatchRejection)
    | ReportedByEdge(text: Id)
    | CommandExpiredUnacknowledged
    | DecidedOnReconnect(why: DecisionReason)

  datatype EventPayload =
    | CommandSummary(commandId: Id, robotId: Id, sequence: int)
    | DispatchDetails(commandType: CommandType, sequence: int)
    | CancelDetails(cancelReason: Text, sequence: int)
    | Rejection(reason: DispatchRejection, details: RejectionDetails)
    | AckSummary(status: AckStatus, commandType: CommandType, lifecycle: Lifecycle, missionId: Option<Id>,
                 ackRobotId: Option<Id>, sequence: int)
    | TimeoutSummary(commandId: Id)
    | TimeoutDetails(expiresAt: Time)
    | TelemetrySummary(telemetry: TelemetryReport)
    | ConnectionChange(previous: Connection, current: Option<Connection>)
    | Reconciled(outcome: Outcome, why: DecisionReason, handshake: HandshakeReport)

  datatype AggregateType = MissionAggregate | RobotAggregate | CommandAggregate | SystemAggregate
  datatype EventType =
    | MISSION_COMMAND_REJECTED | MISSION_COMMAND_DISPATCHED | MISSION_CANCEL_REJECTED | MISSION_CANCEL_REQUESTED
    | MISSION_COMMAND_ACKED | MISSION_COMMAND_TIMEOUT | ROBOT_TELEMETRY_RECEIVED
    | ROBOT_CONNECTION_FRESHNESS_CHANGED | ROBOT_RECONNECT_STARTED | MISSION_RECONCILIATION_COMPLETED
  datatype ActorType = Operator | System | Edge

  /** The fields of a domain event that its reducer supplies; `createDomainEvent` adds the id. */
  datatype EventFields = EventFields(
    eventType: EventType, aggregateType: AggregateType, aggregateId: Id, occurredAt: Time, receivedAt: Time,
    correlationId: Text, causationId: Option<Id>, payload: EventPayload)

  datatype AuditFields = AuditFields(
    actorType: ActorType, action: EventType, occurredAt: Time, missionId: Option<Id>, robotId: Option<Id>,
    commandId: Option<Id>, correlationId: Text, causationId: Option<Id>, details: EventPayload)

  datatype DomainEvent = DomainEvent(eventId: Text, fields: EventFields)
  datatype AuditEvent = AuditEvent(auditEventId: Text, fields: AuditFields)

  datatype DomainState = DomainState(
    missions: map<Id, Mission>,
    robots: map<Id, Robot>,
    commands: map<Id, Command>,
    idempotencyRecords: map<Id, IdempotencyRecord>,
    processedEventIds: seq<Id>,
    processedAckIds: seq<Id>,
    processedSessionIds: seq<Id>,
    nextSequence: map<Id, int>,
    auditEvents: seq<AuditEvent>,
    domainEvents: seq<DomainEvent>)
  {
    function RobotOf(robotId: Id): Option<Robot> {
      if robotId in robots then Some(robots[robotId]) else None
    }

    function MissionOf(missionId: Option<Id>): Option<Mission> {
      if missionId.Some? && missionId.value in missions then Some(missions[missionId.value]) else None
    }

    function CommandOf(commandId: Option<Id>): Option<Command> {
      if commandId.Some? && commandId.value in commands then Some(commands[commandId.value]) else None
    }
  }

  const INITIAL_STATE := DomainState(map[], map[], map[], map[], [], [], [], map[], [], [])

  /** Every snapshot is stored under its own id. */
  ghost predicate KeyedById(s: DomainState) {
    && (forall m | m in s.missions :: s.missions[m].missionId == m)
    && (forall r | r in s.robots :: s.robots[r].robotId == r)
    && (forall c | c in s.commands :: s.commands[c].commandId == c)
    && (forall k | k in s.idempotencyRecords :: s.idempotencyRecords[k].idempotencyKey == k)
  }

  /** What a reducer returns: the next state, its decision, and the records it emitted. */
  datatype Transition<+R> = Transition(
    state: DomainState, result: R, auditEvents: seq<AuditEvent>, domainEvents: seq<DomainEvent>)

  function Unchanged<R>(s: DomainState, result: R): Transition<R> {
    Transition(s, result, [], [])
  }

  /**
   The entries a reducer replaces in its copy of the state: at most one snapshot of each kind, a new command
   with its idempotency record and the counter behind it, and the id of the message it has now seen.
   */
  datatype Changes = Changes(
    mission: Option<Mission>, robot: Option<Robot>, command: Option<Command>,
    record: Option<IdempotencyRecord>, ackId: Option<Id>, eventId: Option<Id>, sessionId: Option<Id>)

  const NO_CHANGES := Changes(None, None, None, None, None, None, None)

  function Noted(seen: seq<Id>, id: Option<Id>): seq<Id> {
    if id.Some? then seen + [id.value] else seen
  }

  function Put(s: DomainState, c: Changes): DomainState {
    s.(missions := if c.mission.Some? then s.missions[c.mission.value.missionId := c.mission.value] else s.missions,
       robots := if c.robot.Some? then s.robots[c.robot.value.robotId := c.robot.value] else s.robots,
       commands :=
         if c.command.Some? then s.commands[c.command.value.commandId := c.command.value] else s.commands,
       idempotencyRecords :=
         if c.record.Some? then s.idempotencyRecords[c.record.value.idempotencyKey := c.record.value]
         else s.idempotencyRecords,
       nextSequence :=
         if c.command.Some? then s.nextSequence[c.command.value.robotId := c.command.value.sequence + 1]
         else s.nextSequence,
       processedAckIds := Noted(s.processedAckIds, c.ackId),
       processedEventIds := Noted(s.processedEventIds, c.eventId),
       processedSessionIds := Noted(s.processedSessionIds, c.sessionId))
  }

  /******* Generated records *******/

  function Zeros(n: nat): Text {
    seq(n, _ => 48)
  }

  /** `String(n).padStart(6, "0")` */
  function Padded(n: nat): Text {
    var d := Decimal(n);
    if |d| < 6 then Zeros(6 - |d|) + d else d
  }

  const DOMAIN_EVENT_PREFIX: Text := Ascii("evt_domain_")
  const AUDIT_EVENT_PREFIX: Text := Ascii("audit_")

  function DomainEventId(n: nat): Text { DOMAIN_EVENT_PREFIX + Padded(n) }
  function AuditEventId(n: nat): Text { AUDIT_EVENT_PREFIX + Padded(n) }

  function CreateDomainEvent(s: DomainState, fields: EventFields): DomainEvent {
    DomainEvent(DomainEventId(|s.domainEvents| + 1), fields)
  }

  function CreateAuditEvent(s: DomainState, fields: AuditFields): AuditEvent {
    AuditEvent(AuditEventId(|s.auditEvents| + 1), fields)
  }

  function AppendRecords(s: DomainState, e: DomainEvent, a: AuditEvent): DomainState {
    s.(domainEvents := s.domainEvents + [e], auditEvents := s.auditEvents + [a])
  }

  /** Applies the changes and appends one domain and one audit record, numbered by the logs' lengths. */
  function Emit<R>(s: DomainState, changes: Changes, event: EventFields, audit: AuditFields, result: R)
    : Transition<R>
  {
    var e := CreateDomainEvent(s, event);
    var a := CreateAuditEvent(s, audit);
    Transition(AppendRecords(Put(s, changes), e, a), result, [a], [e])
  }

  /******* Policies *******/

  datatype DomainConfig = DomainConfig(
    telemetryStaleAfterMs: int, telemetryDegradedAfterMs: int, telemetryOfflineAfterMs: int,
    lowBatteryPercent: real, maxCommandTtlMs: int, allowedCommandTypes: set<CommandType>)

  const DEFAULT_CONFIG := DomainConfig(
    5000, 10000, 30000, 20.0, 30000, {GoToPose, CancelMission, PauseMission, ResumeMission, EmergencyStop})

  predicate IsActive(l: Lifecycle): (active: bool)
    ensures active <==> l.CREATED? || l.VALIDATED? || l.ASSIGNED? || l.DISPATCHED? || l.ACKNOWLEDGED? || l.RUNNING?
                        || l.CANCEL_REQUESTED?
  {
    !(l.REJECTED? || l.SAFETY_BLOCKED? || l.CANCELLED? || l.SUCCEEDED? || l.FAILED? || l.TIMED_OUT?
      || l.MANUAL_REVIEW?)
  }

  function ClassifyConnection(heartbeatAgeMs: int, config: DomainConfig): Connection {
    if heartbeatAgeMs >= config.telemetryOfflineAfterMs then OFFLINE
    else if heartbeatAgeMs >= config.telemetryDegradedAfterMs then DEGRADED
    else if heartbeatAgeMs >= config.telemetryStaleAfterMs then STALE
    else ONLINE
  }

  predicate IsRisky(t: CommandType, c: SafetyClass) {
    c.Risky? || c.Emergency? || t.GoToPose? || t.ResumeMission?
  }

  function Max(a: nat, b: nat): (m: nat)
    ensures a <= m && b <= m && (m == a || m == b)
  {
    if a < b then b else a
  }
}
