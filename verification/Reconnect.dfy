/** `beginReconnect` and `processReconnectHandshake`: reconciling cloud and edge after an interruption. */
module Reconnect {
  import opened Texts
  import opened FleetState
  import opened Telemetry

  datatype ReconnectInput = ReconnectInput(robotId: Id, now: Time, correlationId: Id)

  datatype ReconnectStart = ReconnectProcessed(robot: Robot) | ReconnectUnknownRobot

  datatype Decision = Decision(outcome: Outcome, reason: DecisionReason)

  datatype HandshakeResult =
    | HandshakeProcessed(decision: Decision, mission: Option<Mission>)
    | HandshakeDuplicate

  function ReconnectChanges(s: DomainState, r: ReconnectInput): Changes {
    if r.robotId !in s.robots then NO_CHANGES
    else
      var robot := s.robots[r.robotId];
      NO_CHANGES.(
        robot := Some(robot.(connectionState := RECONNECTING, updatedAt := r.now)),
        mission := WithStatus(CurrentActive(s, robot), RECONNECTING_STATUS, r.now))
  }

  function BeginReconnect(s: DomainState, r: ReconnectInput): Transition<ReconnectStart> {
    if r.robotId !in s.robots then Unchanged(s, ReconnectUnknownRobot)
    else
      var robot := s.robots[r.robotId];
      var mission := CurrentActive(s, robot);
      var change := ConnectionChange(robot.connectionState, None);
      Emit(s, ReconnectChanges(s, r),
           EventFields(ROBOT_RECONNECT_STARTED, RobotAggregate, r.robotId, r.now, r.now, r.correlationId,
                       None, change),
           AuditFields(System, ROBOT_RECONNECT_STARTED, r.now,
                       if mission.Some? then Some(mission.value.missionId) else None, Some(r.robotId), None,
                       r.correlationId, None, change),
           ReconnectProcessed(robot.(connectionState := RECONNECTING, updatedAt := r.now)))
  }

  function CurrentMission(s: DomainState, robotId: Id): Option<Mission> {
    if robotId in s.robots then s.MissionOf(s.robots[robotId].activeMissionId) else None
  }

  function DecideReconciliation(s: DomainState, h: HandshakeReport): Decision {
    var reported := s.MissionOf(h.reportedMissionId);
    var current := CurrentMission(s, h.robotId);
    if reported.None? then
      Decision(ManualReview, UnknownReportedMission)
    else if current.Some? && current.value.missionId != h.reportedMissionId.value then
      Decision(ManualReview, ConflictingMission)
    else if SawExpiredCommand(s, h, reported.value) then
      Decision(ManualReview, ClaimsExpiredCommand)
    else if reported.value.lastCommandSequence.Some?
            && h.lastSeenCommandSequence < reported.value.lastCommandSequence.value
            && h.lastAcknowledgedCommandId != reported.value.lastAcknowledgedCommandId then
      Decision(ManualReview, UnexplainedGap)
    else if h.reportedLifecycle == Some(SUCCEEDED) then
      Decision(MarkSucceeded, ReportedSucceeded)
    else if h.reportedLifecycle == Some(FAILED) then
      Decision(MarkFailed, ReportedFailed)
    else
      Decision(ResumeRunning, StatesMatch)
  }

  predicate SawExpiredCommand(s: DomainState, h: HandshakeReport, reported: Mission) {
    var latest := s.CommandOf(reported.currentCommandId);
    latest.Some? && reported.lifecycle.DISPATCHED? && latest.value.expiresAt < h.connectedAt
    && h.lastSeenCommandSequence >= latest.value.sequence
  }

  function ApplyReconciliation(mission: Mission, d: Decision, now: Time): Mission {
    match d.outcome
    case MarkSucceeded => mission.(lifecycle := SUCCEEDED, operationalStatus := RECOVERED, updatedAt := now)
    case MarkFailed =>
      mission.(lifecycle := FAILED, operationalStatus := RECOVERED, updatedAt := now,
               failureReason := Some(DecidedOnReconnect(d.reason)))
    case ManualReview =>
      mission.(lifecycle := MANUAL_REVIEW, operationalStatus := RECONCILING, updatedAt := now,
               failureReason := Some(DecidedOnReconnect(d.reason)))
    case ResumeRunning => mission.(lifecycle := RUNNING, operationalStatus := RECOVERED, updatedAt := now)
  }

  /** The mission a handshake rewrites: the reported one, else the cloud's own when it needs review. */
  function ReconciledMission(s: DomainState, h: HandshakeReport, decidedAt: Time): Option<Mission> {
    var decision := DecideReconciliation(s, h);
    var reported := s.MissionOf(h.reportedMissionId);
    var current := CurrentMission(s, h.robotId);
    if reported.Some? then Some(ApplyReconciliation(reported.value, decision, decidedAt))
    else if current.Some? && decision.outcome.ManualReview? then
      Some(ApplyReconciliation(current.value, decision, decidedAt))
    else None
  }

  /** The robot after a handshake; its mission pointer follows the rewritten mission. */
  function ReconciledRobot(existing: Option<Robot>, h: HandshakeReport, outcome: Outcome,
                           mission: Option<Mission>, decidedAt: Time): Robot
  {
    var base :=
      existing.Or(Robot(h.robotId, ONLINE, decidedAt, None, None, None, None, None, None, None, 0, None));
    base.(robotId := h.robotId,
          connectionState := if outcome.ManualReview? then DEGRADED else ONLINE,
          updatedAt := decidedAt,
          lastTelemetryObservedAt := Some(h.lastTelemetryObservedAt),
          lastSeenCommandSequence := Max(base.lastSeenCommandSequence, h.lastSeenCommandSequence),
          edgeAgentVersion := Some(h.edgeAgentVersion),
          activeMissionId :=
            if mission.Some? && IsActive(mission.value.lifecycle) then Some(mission.value.missionId)
            else if mission.None? then base.activeMissionId
            else None,
          lastAcknowledgedCommandId := h.lastAcknowledgedCommandId.OrElse(base.lastAcknowledgedCommandId))
  }

  function HandshakeChanges(s: DomainState, h: HandshakeReport, now: Option<Time>): Changes {
    if h.edgeSessionId in s.processedSessionIds then NO_CHANGES
    else
      var decidedAt := now.Or(h.connectedAt);
      var mission := ReconciledMission(s, h, decidedAt);
      NO_CHANGES.(
        mission := mission,
        robot := Some(ReconciledRobot(s.RobotOf(h.robotId), h, DecideReconciliation(s, h).outcome, mission,
                                      decidedAt)),
        sessionId := Some(h.edgeSessionId))
  }

  function ProcessReconnectHandshake(s: DomainState, h: HandshakeReport, now: Option<Time>, correlationId: Id)
    : Transition<HandshakeResult>
  {
    if h.edgeSessionId in s.processedSessionIds then Unchanged(s, HandshakeDuplicate)
    else
      var decidedAt := now.Or(h.connectedAt);
      var decision := DecideReconciliation(s, h);
      var mission := ReconciledMission(s, h, decidedAt);
      var reconciled := Reconciled(decision.outcome, decision.reason, h);
      Emit(s, HandshakeChanges(s, h, now),
           EventFields(MISSION_RECONCILIATION_COMPLETED,
                       if mission.Some? then MissionAggregate else RobotAggregate,
                       if mission.Some? then mission.value.missionId else h.robotId,
                       decidedAt, decidedAt, correlationId, Some(h.edgeSessionId), reconciled),
           AuditFields(System, MISSION_RECONCILIATION_COMPLETED, decidedAt,
                       if mission.Some? then Some(mission.value.missionId) else None, Some(h.robotId),
                       h.lastAcknowledgedCommandId, correlationId, Some(h.edgeSessionId), reconciled),
           HandshakeProcessed(decision, mission))
  }
}
