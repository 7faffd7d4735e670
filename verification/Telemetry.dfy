/** `ingestRobotTelemetry` and `evaluateTelemetryFreshness`. */
module Telemetry {
  import opened Texts
  import opened FleetState

  datatype TelemetryResult = TelemetryProcessed(robot: Robot) | TelemetryDuplicate

  datatype FreshnessInput = FreshnessInput(robotId: Id, now: Time, correlationId: Option<Id>)

  datatype FreshnessResult =
    | FreshnessUpdated(robot: Robot, previous: Connection)
    | FreshnessUnchanged(robot: Robot)
    | FreshnessUnknownRobot

  const CORRELATION_PREFIX: Text := Ascii("corr_")
  const FRESHNESS_PREFIX: Text := Ascii("corr_freshness_")

  function ReportedRobot(existing: Option<Robot>, t: TelemetryReport): Robot {
    Robot(t.robotId, t.connectionState, t.receivedAt, Some(t.pose), Some(t.health), Some(t.batteryPercent),
          t.currentMissionId.OrElse(if existing.Some? then existing.value.activeMissionId else None),
          Some(t.observedAt), Some(t.receivedAt),
          t.lastAcknowledgedCommandId.OrElse(
            if existing.Some? then existing.value.lastAcknowledgedCommandId else None),
          Max(if existing.Some? then existing.value.lastSeenCommandSequence else 0, t.lastSeenCommandSequence),
          Some(t.edgeAgentVersion))
  }

  function ReportedMission(mission: Mission, t: TelemetryReport): Mission {
    mission.(lifecycle := if mission.lifecycle.DISPATCHED? then RUNNING else mission.lifecycle,
             operationalStatus :=
               if t.connectionState.ONLINE? && t.health.OK? then NOMINAL else DEGRADED_STATUS,
             updatedAt := t.receivedAt,
             lastAcknowledgedCommandId :=
               t.lastAcknowledgedCommandId.OrElse(mission.lastAcknowledgedCommandId),
             lastAcknowledgedCommandSequence := Some(t.lastSeenCommandSequence))
  }

  function TelemetryChanges(s: DomainState, t: TelemetryReport): Changes {
    if t.eventId in s.processedEventIds then NO_CHANGES
    else
      var mission := s.MissionOf(t.currentMissionId);
      NO_CHANGES.(
        mission :=
          if mission.Some? && IsActive(mission.value.lifecycle) then Some(ReportedMission(mission.value, t))
          else None,
        robot := Some(ReportedRobot(s.RobotOf(t.robotId), t)),
        eventId := Some(t.eventId))
  }

  function IngestRobotTelemetry(s: DomainState, t: TelemetryReport): Transition<TelemetryResult> {
    if t.eventId in s.processedEventIds then Unchanged(s, TelemetryDuplicate)
    else
      var correlationId := CORRELATION_PREFIX + t.eventId;
      Emit(s, TelemetryChanges(s, t),
           EventFields(ROBOT_TELEMETRY_RECEIVED, RobotAggregate, t.robotId, t.observedAt, t.receivedAt,
                       correlationId, Some(t.eventId), TelemetrySummary(t)),
           AuditFields(Edge, ROBOT_TELEMETRY_RECEIVED, t.receivedAt, t.currentMissionId, Some(t.robotId),
                       t.lastAcknowledgedCommandId, correlationId, Some(t.eventId), TelemetrySummary(t)),
           TelemetryProcessed(ReportedRobot(s.RobotOf(t.robotId), t)))
  }

  /** The robot's current mission while it is active; freshness and reconnect only touch its status. */
  function CurrentActive(s: DomainState, robot: Robot): Option<Mission> {
    var mission := s.MissionOf(robot.activeMissionId);
    if mission.Some? && IsActive(mission.value.lifecycle) then mission else None
  }

  function WithStatus(mission: Option<Mission>, status: OperationalStatus, now: Time): Option<Mission> {
    if mission.Some? then Some(mission.value.(operationalStatus := status, updatedAt := now)) else None
  }

  function FreshConnection(robot: Robot, now: Time, config: DomainConfig): Connection {
    var lastSeenAt := robot.lastTelemetryReceivedAt.OrElse(robot.lastTelemetryObservedAt);
    if lastSeenAt.Some? then ClassifyConnection(now - lastSeenAt.value, config) else OFFLINE
  }

  function FreshnessChanges(s: DomainState, f: FreshnessInput, config: DomainConfig): Changes {
    if f.robotId !in s.robots then NO_CHANGES
    else
      var robot := s.robots[f.robotId];
      var connection := FreshConnection(robot, f.now, config);
      if connection == robot.connectionState then NO_CHANGES
      else
        NO_CHANGES.(
          robot := Some(robot.(connectionState := connection, updatedAt := f.now)),
          mission := WithStatus(CurrentActive(s, robot),
                                if connection.ONLINE? then NOMINAL else DEGRADED_STATUS, f.now))
  }

  function EvaluateTelemetryFreshness(s: DomainState, f: FreshnessInput, config: DomainConfig)
    : Transition<FreshnessResult>
  {
    if f.robotId !in s.robots then Unchanged(s, FreshnessUnknownRobot)
    else
      var robot := s.robots[f.robotId];
      var connection := FreshConnection(robot, f.now, config);
      if connection == robot.connectionState then Unchanged(s, FreshnessUnchanged(robot))
      else
        var mission := CurrentActive(s, robot);
        var correlationId: Text :=
          if f.correlationId.Some? then f.correlationId.value else FRESHNESS_PREFIX + f.robotId;
        var change := ConnectionChange(robot.connectionState, Some(connection));
        Emit(s, FreshnessChanges(s, f, config),
             EventFields(ROBOT_CONNECTION_FRESHNESS_CHANGED, RobotAggregate, f.robotId, f.now, f.now,
                         correlationId, None, change),
             AuditFields(System, ROBOT_CONNECTION_FRESHNESS_CHANGED, f.now,
                         if mission.Some? then Some(mission.value.missionId) else None, Some(f.robotId),
                         None, correlationId, None, change),
             FreshnessUpdated(robot.(connectionState := connection, updatedAt := f.now),
                              robot.connectionState))
  }
}
