/** `dispatchMissionCommand`: the operator asks for one outbound command. */
module Dispatch {
  import opened Texts
  import opened KeySort
  import opened Json
  import opened FleetState

  datatype DispatchInput = DispatchInput(
    commandId: Id, missionId: Id, robotId: Id, commandType: CommandType, idempotencyKey: Id,
    issuedAt: Time, expiresAt: Time, correlationId: Id, causationId: Id, payload: JsonTree, now: Time,
    requiresAck: Option<bool>, safetyClass: Option<SafetyClass>)

  datatype DispatchResult =
    | DispatchAccepted(command: Command, mission: Mission)
    | DispatchReplay(command: Command, mission: Mission)
    | DispatchRejected(reason: DispatchRejection, rejected: Option<Mission>, issues: Option<seq<PayloadIssue>>)

  /******* Payloads and signatures *******/

  function TypeText(t: CommandType): Text {
    match t
    case GoToPose => Ascii("GO_TO_POSE")
    case CancelMission => Ascii("CANCEL_MISSION")
    case PauseMission => Ascii("PAUSE_MISSION")
    case ResumeMission => Ascii("RESUME_MISSION")
    case EmergencyStop => Ascii("EMERGENCY_STOP")
  }

  const MISSION_ID: Text := Ascii("missionId")
  const ROBOT_ID: Text := Ascii("robotId")
  const TYPE: Text := Ascii("type")
  const PAYLOAD: Text := Ascii("payload")
  const REASON: Text := Ascii("reason")
  const TARGET: Text := Ascii("target")

  function SignedRequest(d: DispatchInput): Json {
    JObject([
      Member(MISSION_ID, JString(d.missionId)),
      Member(ROBOT_ID, JString(d.robotId)),
      Member(TYPE, JString(TypeText(d.commandType))),
      Member(PAYLOAD, d.payload)])
  }

  function DispatchSignature(d: DispatchInput): Text {
    Print(SignedRequest(d), Less)
  }

  function Field(v: Json, key: Text): Option<Json> {
    match v
    case JObject(ms) => FindMember(ms, key)
    case _ => None
  }

  function FindMember(ms: seq<Member<Json>>, key: Text): Option<Json> {
    if ms == [] then None else if ms[0].key == key then Some(ms[0].value) else FindMember(ms[1..], key)
  }

  function NumberField(v: Json, key: Text): Option<Number> {
    match Field(v, key)
    case Some(JNumber(n)) => Some(n)
    case _ => None
  }

  function CoordinateIssue(target: Json, coordinate: Text, issue: PayloadIssue): seq<PayloadIssue> {
    if NumberField(target, coordinate).Some? then [] else [issue]
  }

  /** What `validateCommandPayload` complains about; the payload is valid when there is nothing. */
  function PayloadIssues(t: CommandType, payload: Json): seq<PayloadIssue> {
    if !payload.JObject? then [AtPayload]
    else if t.GoToPose? then
      var target := Field(payload, TARGET);
      if target.None? || !target.value.JObject? then [AtTarget]
      else
        CoordinateIssue(target.value, Ascii("x"), AtX) + CoordinateIssue(target.value, Ascii("y"), AtY)
        + CoordinateIssue(target.value, Ascii("theta"), AtTheta)
    else if t.CancelMission? then
      match Field(payload, REASON)
      case Some(JString(s)) => if s == [] then [AtReason] else []
      case _ => [AtReason]
    else []
  }

  function TargetPose(t: CommandType, payload: Json): Option<Pose2D> {
    if !t.GoToPose? then None
    else
      var target := Field(payload, TARGET);
      if target.None? then None
      else
        match (NumberField(target.value, Ascii("x")), NumberField(target.value, Ascii("y")),
               NumberField(target.value, Ascii("theta")))
        case (Some(x), Some(y), Some(theta)) => Some(Pose2D(x, y, theta))
        case _ => None
  }

  /******* The reducer *******/

  function RejectionEvent(d: DispatchInput, payload: EventPayload): EventFields {
    EventFields(MISSION_COMMAND_REJECTED, MissionAggregate, d.missionId, d.now, d.now, d.correlationId,
                Some(d.causationId), payload)
  }

  function RejectionAudit(d: DispatchInput, payload: EventPayload): AuditFields {
    AuditFields(System, MISSION_COMMAND_REJECTED, d.now, Some(d.missionId), Some(d.robotId),
                Some(d.commandId), d.correlationId, Some(d.causationId), payload)
  }

  /** Why a new request is refused and the terminal state its mission gets. */
  datatype Refusal = Refusal(
    reason: DispatchRejection, safetyBlocked: bool, details: RejectionDetails, issues: Option<seq<PayloadIssue>>)

  datatype Verdict =
    | Conflict(existing: IdempotencyRecord)
    | Replay(existing: IdempotencyRecord)
    | Refuse(refusal: Refusal)
    | Accept

  /** The stored record settles the request: its command and mission are both still there. */
  predicate Settles(s: DomainState, record: IdempotencyRecord) {
    record.commandId in s.commands && record.missionId in s.missions
  }

  /** Idempotency first, then the gates. */
  function Judge(s: DomainState, d: DispatchInput, config: DomainConfig): (v: Verdict)
    ensures v.Replay? ==> Settles(s, v.existing)
  {
    var known := Known(s, d.idempotencyKey);
    if known.Some? && known.value.payloadSignature != DispatchSignature(d) then Conflict(known.value)
    else if known.Some? && Settles(s, known.value) then Replay(known.value)
    else
      var refusal := DispatchRefusal(s, d, config);
      if refusal.Some? then Refuse(refusal.value) else Accept
  }

  /** The gates of a new request, in order; the first one that closes decides. */
  function DispatchRefusal(s: DomainState, d: DispatchInput, config: DomainConfig): Option<Refusal> {
    var issues := PayloadIssues(d.commandType, d.payload);
    var robot := s.RobotOf(d.robotId);
    var risky := IsRisky(d.commandType, d.safetyClass.Or(Normal));
    if d.commandId in s.commands then
      Some(Refusal(DUPLICATE_COMMAND_ID, false, NoDetails, None))
    else if d.commandType !in config.allowedCommandTypes then
      Some(Refusal(COMMAND_TYPE_NOT_ALLOWED, false, TypeDetails(d.commandType), None))
    else if issues != [] then
      Some(Refusal(COMMAND_PAYLOAD_INVALID, false, IssueDetails(issues), Some(issues)))
    else if d.expiresAt <= d.now then
      Some(Refusal(COMMAND_EXPIRED, false, ExpiryDetails(d.expiresAt, d.now), None))
    else if d.expiresAt <= d.issuedAt || d.expiresAt - d.issuedAt > config.maxCommandTtlMs then
      Some(Refusal(COMMAND_TTL_INVALID, false, TtlDetails(d.issuedAt, d.expiresAt), None))
    else if risky && (robot.None? || !robot.value.connectionState.ONLINE?) then
      Some(Refusal(ROBOT_TELEMETRY_STALE, true,
                   ConnectionDetails(if robot.Some? then Some(robot.value.connectionState) else None), None))
    else if risky && robot.Some? && robot.value.batteryPercent.Some?
            && robot.value.batteryPercent.value < config.lowBatteryPercent then
      Some(Refusal(LOW_BATTERY, true,
                   BatteryDetails(robot.value.batteryPercent.value, config.lowBatteryPercent), None))
    else if AssignedElsewhere(s, d) then
      Some(Refusal(ROBOT_ALREADY_ASSIGNED, true, ActiveMissionDetails(robot.value.activeMissionId.value), None))
    else if robot.Some? && robot.value.connectionState.RECONNECTING? then
      Some(Refusal(RECONCILIATION_IN_PROGRESS, true, ConnectionDetails(Some(RECONNECTING)), None))
    else
      None
  }

  function DispatchMissionCommand(s: DomainState, d: DispatchInput, config: DomainConfig)
    : Transition<DispatchResult>
  {
    match Judge(s, d, config)
    case Conflict(existing) =>
      RejectDispatch(s, d, Refusal(IDEMPOTENCY_KEY_REUSE_CONFLICT, false, ExistingCommand(existing.commandId), None),
                     None)
    case Replay(existing) =>
      Unchanged(s, DispatchReplay(s.commands[existing.commandId], s.missions[existing.missionId]))
    case Refuse(refusal) => RejectDispatch(s, d, refusal, Some(RejectedMission(d, refusal)))
    case Accept => AcceptDispatch(s, d)
  }

  /** A conflict leaves the missions alone; any other rejection stores a terminal snapshot, known robot or not. */
  function RejectDispatch(s: DomainState, d: DispatchInput, refusal: Refusal, mission: Option<Mission>)
    : Transition<DispatchResult>
  {
    var payload := Rejection(refusal.reason, refusal.details);
    Emit(s, NO_CHANGES.(mission := mission), RejectionEvent(d, payload), RejectionAudit(d, payload),
         DispatchRejected(refusal.reason, mission, refusal.issues))
  }

  function RejectedMission(d: DispatchInput, refusal: Refusal): Mission {
    Mission(d.missionId, d.robotId, if refusal.safetyBlocked then SAFETY_BLOCKED else REJECTED,
            DEGRADED_STATUS, TargetPose(d.commandType, d.payload), d.now, d.now, None, None, None, None,
            Some(d.idempotencyKey), Some(Refused(refusal.reason)))
  }

  /** The record already stored under the request's idempotency key, if any. */
  function Known(s: DomainState, key: Id): Option<IdempotencyRecord> {
    if key in s.idempotencyRecords then Some(s.idempotencyRecords[key]) else None
  }

  /** The robot's current mission is another one and still active. */
  predicate AssignedElsewhere(s: DomainState, d: DispatchInput) {
    var robot := s.RobotOf(d.robotId);
    robot.Some? && robot.value.activeMissionId.Some? && robot.value.activeMissionId.value != d.missionId
    && robot.value.activeMissionId.value in s.missions
    && IsActive(s.missions[robot.value.activeMissionId.value].lifecycle)
  }

  function NextSequence(s: DomainState, robotId: Id): int {
    if robotId in s.nextSequence then s.nextSequence[robotId] else 1
  }

  function DispatchedCommand(d: DispatchInput, sequence: int): Command {
    Command(d.commandId, d.missionId, d.robotId, d.commandType, d.idempotencyKey, sequence, d.issuedAt,
            d.expiresAt, d.requiresAck.Or(true), d.safetyClass.Or(Normal), d.correlationId, d.causationId,
            d.payload)
  }

  function DispatchedMission(d: DispatchInput, sequence: int): Mission {
    Mission(d.missionId, d.robotId, DISPATCHED, NOMINAL, TargetPose(d.commandType, d.payload), d.now, d.now,
            Some(d.commandId), Some(sequence), None, None, Some(d.idempotencyKey), None)
  }

  function AssignedRobot(robot: Option<Robot>, d: DispatchInput): Robot {
    if robot.Some? then robot.value.(activeMissionId := Some(d.missionId), updatedAt := d.now)
    else Robot(d.robotId, ONLINE, d.now, None, None, None, Some(d.missionId), None, None, None, 0, None)
  }

  function AcceptChanges(s: DomainState, d: DispatchInput): Changes {
    var sequence := NextSequence(s, d.robotId);
    NO_CHANGES.(
      mission := Some(DispatchedMission(d, sequence)),
      robot := Some(AssignedRobot(s.RobotOf(d.robotId), d)),
      command := Some(DispatchedCommand(d, sequence)),
      record := Some(IdempotencyRecord(d.idempotencyKey, DispatchSignature(d), d.commandId, d.missionId)))
  }

  function AcceptDispatch(s: DomainState, d: DispatchInput): Transition<DispatchResult> {
    var sequence := NextSequence(s, d.robotId);
    Emit(s, AcceptChanges(s, d),
         EventFields(MISSION_COMMAND_DISPATCHED, MissionAggregate, d.missionId, d.now, d.now,
                     d.correlationId, Some(d.causationId), CommandSummary(d.commandId, d.robotId, sequence)),
         AuditFields(Operator, MISSION_COMMAND_DISPATCHED, d.now, Some(d.missionId), Some(d.robotId),
                     Some(d.commandId), d.correlationId, Some(d.causationId),
                     DispatchDetails(d.commandType, sequence)),
         DispatchAccepted(DispatchedCommand(d, sequence), DispatchedMission(d, sequence)))
  }

  function DispatchChanges(s: DomainState, d: DispatchInput, config: DomainConfig): Changes {
    match Judge(s, d, config)
    case Refuse(refusal) => NO_CHANGES.(mission := Some(RejectedMission(d, refusal)))
    case Accept => AcceptChanges(s, d)
    case _ => NO_CHANGES
  }
}
