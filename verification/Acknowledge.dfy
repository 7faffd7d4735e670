/** `applyCommandAck` and `applyMissionTimeout`: what an acknowledgement or its absence does. */
module Acknowledge {
  import opened Texts
  import opened FleetState

  datatype AckResult =
    | AckProcessed(mission: Mission)
    | AckDuplicate
    | AckStale(command: Command)
    | AckUnknownCommand

  datatype TimeoutInput = TimeoutInput(missionId: Id, now: Time, correlationId: Id)

  datatype TimeoutResult =
    | TimedOut(mission: Mission)
    | NotExpired(mission: Mission)
    | NotWaitingForAck(mission: Mission)
    | TimeoutUnknownMission

  function LifecycleFromAck(status: AckStatus, commandType: CommandType): Lifecycle {
    match status
    case Accepted => if commandType.CancelMission? then CANCELLED else RUNNING
    case Duplicate => if commandType.CancelMission? then CANCELLED else RUNNING
    case Expired => TIMED_OUT
    case Rejected => REJECTED
    case Failed => FAILED
  }

  datatype AckVerdict =
    | AckSeen
    | AckOrphan
    | AckOld(command: Command)
    | AckFresh(command: Command, mission: Mission)

  /** Acks are matched to the mission of the command they name; older sequences than the last one are stale. */
  function JudgeAck(s: DomainState, ack: Ack): AckVerdict {
    if ack.ackId in s.processedAckIds then AckSeen
    else if ack.commandId !in s.commands then AckOrphan
    else if s.commands[ack.commandId].missionId !in s.missions then AckOrphan
    else
      var command := s.commands[ack.commandId];
      var mission := s.missions[command.missionId];
      if ack.lastSeenCommandSequence < mission.lastAcknowledgedCommandSequence.Or(0) then AckOld(command)
      else AckFresh(command, mission)
  }

  function ApplyCommandAck(s: DomainState, ack: Ack): Transition<AckResult> {
    var noted := Put(s, NO_CHANGES.(ackId := Some(ack.ackId)));
    match JudgeAck(s, ack)
    case AckSeen => Unchanged(s, AckDuplicate)
    case AckOrphan => Unchanged(noted, AckUnknownCommand)
    case AckOld(command) => Unchanged(noted, AckStale(command))
    case AckFresh(command, mission) => ProcessAck(s, ack, command, mission)
  }

  function AckedMission(ack: Ack, command: Command, mission: Mission): Mission {
    mission.(lifecycle := LifecycleFromAck(ack.status, command.commandType),
             operationalStatus := if ack.status.Accepted? then NOMINAL else DEGRADED_STATUS,
             updatedAt := ack.receivedAt,
             lastAcknowledgedCommandId := Some(ack.commandId),
             lastAcknowledgedCommandSequence := Some(ack.lastSeenCommandSequence),
             failureReason :=
               if ack.reason.Some? then Some(ReportedByEdge(ack.reason.value)) else mission.failureReason)
  }

  /** The robot is online again and owns the acked mission exactly when that mission is now active. */
  function AckedRobot(robot: Option<Robot>, ack: Ack, command: Command, mission: Mission): Robot {
    if robot.Some? then
      robot.value.(connectionState := ONLINE, updatedAt := ack.receivedAt,
                   activeMissionId := if IsActive(mission.lifecycle) then Some(mission.missionId) else None,
                   lastAcknowledgedCommandId := Some(ack.commandId),
                   lastSeenCommandSequence :=
                     Max(robot.value.lastSeenCommandSequence, ack.lastSeenCommandSequence))
    else
      Robot(command.robotId, ONLINE, ack.receivedAt, None, None, None, Some(mission.missionId), None, None,
            Some(ack.commandId), ack.lastSeenCommandSequence, None)
  }

  function AckedChanges(s: DomainState, ack: Ack, command: Command, mission: Mission): Changes {
    var next := AckedMission(ack, command, mission);
    NO_CHANGES.(
      mission := Some(next),
      robot := Some(AckedRobot(s.RobotOf(command.robotId), ack, command, next)),
      ackId := Some(ack.ackId))
  }

  function ProcessAck(s: DomainState, ack: Ack, command: Command, mission: Mission): Transition<AckResult> {
    var next := AckedMission(ack, command, mission);
    Emit(s, AckedChanges(s, ack, command, mission),
         EventFields(MISSION_COMMAND_ACKED, CommandAggregate, ack.commandId, ack.receivedAt,
                     ack.receivedAt, ack.correlationId, Some(ack.causationId),
                     AckSummary(ack.status, command.commandType, next.lifecycle, Some(next.missionId),
                                Some(ack.robotId), ack.lastSeenCommandSequence)),
         AuditFields(Edge, MISSION_COMMAND_ACKED, ack.receivedAt, Some(next.missionId), Some(ack.robotId),
                     Some(ack.commandId), ack.correlationId, Some(ack.causationId),
                     AckSummary(ack.status, command.commandType, next.lifecycle, None, None,
                                ack.lastSeenCommandSequence)),
         AckProcessed(next))
  }

  function AckChanges(s: DomainState, ack: Ack): Changes {
    match JudgeAck(s, ack)
    case AckSeen => NO_CHANGES
    case AckFresh(command, mission) => AckedChanges(s, ack, command, mission)
    case _ => NO_CHANGES.(ackId := Some(ack.ackId))
  }

  /** The command whose expiry ends the wait, when the mission waits for one that has expired. */
  function ExpiredCommand(s: DomainState, t: TimeoutInput): Option<Command>
    requires t.missionId in s.missions
  {
    var mission := s.missions[t.missionId];
    var command := s.CommandOf(mission.currentCommandId);
    if command.Some? && command.value.expiresAt <= t.now then command else None
  }

  function TimedOutMission(mission: Mission, t: TimeoutInput): Mission {
    mission.(lifecycle := TIMED_OUT, operationalStatus := DEGRADED_STATUS, updatedAt := t.now,
             failureReason := Some(CommandExpiredUnacknowledged))
  }

  function ApplyMissionTimeout(s: DomainState, t: TimeoutInput): Transition<TimeoutResult> {
    if t.missionId !in s.missions then Unchanged(s, TimeoutUnknownMission)
    else
      var mission := s.missions[t.missionId];
      var command := ExpiredCommand(s, t);
      if !mission.lifecycle.DISPATCHED? || mission.currentCommandId.None? then
        Unchanged(s, NotWaitingForAck(mission))
      else if command.None? then
        Unchanged(s, NotExpired(mission))
      else
        var commandId := mission.currentCommandId.value;
        var next := TimedOutMission(mission, t);
        Emit(s, NO_CHANGES.(mission := Some(next)),
             EventFields(MISSION_COMMAND_TIMEOUT, MissionAggregate, t.missionId, t.now, t.now,
                         t.correlationId, Some(commandId), TimeoutSummary(commandId)),
             AuditFields(System, MISSION_COMMAND_TIMEOUT, t.now, Some(t.missionId),
                         Some(mission.robotId), Some(commandId), t.correlationId, Some(commandId),
                         TimeoutDetails(command.value.expiresAt)),
             TimedOut(next))
  }

  function TimeoutChanges(s: DomainState, t: TimeoutInput): Changes {
    if t.missionId in s.missions && s.missions[t.missionId].lifecycle.DISPATCHED? && ExpiredCommand(s, t).Some?
    then NO_CHANGES.(mission := Some(TimedOutMission(s.missions[t.missionId], t)))
    else NO_CHANGES
  }
}
