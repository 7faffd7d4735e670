/** `requestMissionCancellation`: the operator asks the edge to cancel an active mission. */
module Cancel {
  import opened Texts
  import opened KeySort
  import opened Json
  import opened FleetState
  import opened Dispatch

  datatype CancelInput = CancelInput(
    commandId: Id, missionId: Id, idempotencyKey: Id, issuedAt: Time, expiresAt: Time, correlationId: Id,
    causationId: Id, reason: Text, now: Time)

  datatype CancelResult =
    | CancelAccepted(command: Command, mission: Mission)
    | CancelReplay(command: Command, mission: Mission)
    | CancelRejected(reason: DispatchRejection, rejected: Option<Mission>)

  function ReasonPayload(c: CancelInput): JsonTree {
    var v := JString(c.reason);
    assert WellFormed(v);
    JObject([Member(REASON, v)])
  }

  function SignedCancel(c: CancelInput): Json {
    JObject([
      Member(MISSION_ID, JString(c.missionId)),
      Member(TYPE, JString(TypeText(CancelMission))),
      Member(PAYLOAD, ReasonPayload(c))])
  }

  function CancelSignature(c: CancelInput): Text {
    Print(SignedCancel(c), Less)
  }

  datatype CancelVerdict =
    | CancelUnknown
    | CancelConflict(mission: Mission)
    | CancelReplays(existing: IdempotencyRecord)
    | CancelRefuse(reason: DispatchRejection, mission: Mission)
    | CancelAccept(mission: Mission)

  function JudgeCancel(s: DomainState, c: CancelInput, config: DomainConfig): (v: CancelVerdict)
    ensures v.CancelReplays? ==> Settles(s, v.existing)
    ensures v.CancelAccept? ==> c.missionId in s.missions && v.mission == s.missions[c.missionId]
  {
    if c.missionId !in s.missions then CancelUnknown
    else
      var mission := s.missions[c.missionId];
      var known := Known(s, c.idempotencyKey);
      if known.Some? && known.value.payloadSignature != CancelSignature(c) then CancelConflict(mission)
      else if known.Some? && Settles(s, known.value) then CancelReplays(known.value)
      else
        var refusal := CancelRefusal(s, c, mission, config);
        if refusal.Some? then CancelRefuse(refusal.value, mission) else CancelAccept(mission)
  }

  function RejectCancellation(s: DomainState, c: CancelInput, reason: DispatchRejection,
                              mission: Option<Mission>): Transition<CancelResult>
  {
    var payload := Rejection(reason, NoDetails);
    Emit(s, NO_CHANGES,
         EventFields(MISSION_CANCEL_REJECTED, if mission.Some? then MissionAggregate else SystemAggregate,
                     if mission.Some? then mission.value.missionId else c.missionId, c.now, c.now,
                     c.correlationId, Some(c.causationId), payload),
         AuditFields(System, MISSION_CANCEL_REJECTED, c.now,
                     if mission.Some? then Some(mission.value.missionId) else None,
                     if mission.Some? then Some(mission.value.robotId) else None,
                     Some(c.commandId), c.correlationId, Some(c.causationId), payload),
         CancelRejected(reason, mission))
  }

  function RequestMissionCancellation(s: DomainState, c: CancelInput, config: DomainConfig)
    : Transition<CancelResult>
  {
    match JudgeCancel(s, c, config)
    case CancelUnknown => RejectCancellation(s, c, UNKNOWN_MISSION, None)
    case CancelConflict(mission) => RejectCancellation(s, c, IDEMPOTENCY_KEY_REUSE_CONFLICT, Some(mission))
    case CancelReplays(existing) =>
      Unchanged(s, CancelReplay(s.commands[existing.commandId], s.missions[existing.missionId]))
    case CancelRefuse(reason, mission) => RejectCancellation(s, c, reason, Some(mission))
    case CancelAccept(mission) => AcceptCancellation(s, c, mission)
  }

  function CancelRefusal(s: DomainState, c: CancelInput, mission: Mission, config: DomainConfig)
    : Option<DispatchRejection>
  {
    if !IsActive(mission.lifecycle) then Some(MISSION_NOT_ACTIVE)
    else if c.commandId in s.commands then Some(DUPLICATE_COMMAND_ID)
    else if c.expiresAt <= c.now then Some(COMMAND_EXPIRED)
    else if c.expiresAt <= c.issuedAt || c.expiresAt - c.issuedAt > config.maxCommandTtlMs then
      Some(COMMAND_TTL_INVALID)
    else None
  }

  /** The robot's counter, or one past the best sequence the cloud has for it when there is no counter. */
  function CancelSequence(s: DomainState, mission: Mission): int {
    if mission.robotId in s.nextSequence then s.nextSequence[mission.robotId]
    else if mission.lastCommandSequence.Some? then mission.lastCommandSequence.value + 1
    else if mission.robotId in s.robots then s.robots[mission.robotId].lastSeenCommandSequence + 1
    else 1
  }

  function CancelCommand(c: CancelInput, mission: Mission, sequence: int): Command {
    Command(c.commandId, mission.missionId, mission.robotId, CancelMission, c.idempotencyKey, sequence,
            c.issuedAt, c.expiresAt, true, Normal, c.correlationId, c.causationId, ReasonPayload(c))
  }

  function CancellingMission(c: CancelInput, mission: Mission, sequence: int): Mission {
    mission.(lifecycle := CANCEL_REQUESTED, updatedAt := c.now, currentCommandId := Some(c.commandId),
             lastCommandSequence := Some(sequence))
  }

  function AcceptCancelChanges(s: DomainState, c: CancelInput, mission: Mission): Changes {
    var sequence := CancelSequence(s, mission);
    NO_CHANGES.(
      mission := Some(CancellingMission(c, mission, sequence)),
      command := Some(CancelCommand(c, mission, sequence)),
      record := Some(IdempotencyRecord(c.idempotencyKey, CancelSignature(c), c.commandId, mission.missionId)))
  }

  function AcceptCancellation(s: DomainState, c: CancelInput, mission: Mission): Transition<CancelResult> {
    var sequence := CancelSequence(s, mission);
    Emit(s, AcceptCancelChanges(s, c, mission),
         EventFields(MISSION_CANCEL_REQUESTED, MissionAggregate, mission.missionId, c.now, c.now,
                     c.correlationId, Some(c.causationId),
                     CommandSummary(c.commandId, mission.robotId, sequence)),
         AuditFields(Operator, MISSION_CANCEL_REQUESTED, c.now, Some(mission.missionId),
                     Some(mission.robotId), Some(c.commandId), c.correlationId, Some(c.causationId),
                     CancelDetails(c.reason, sequence)),
         CancelAccepted(CancelCommand(c, mission, sequence), CancellingMission(c, mission, sequence)))
  }

  function CancelChanges(s: DomainState, c: CancelInput, config: DomainConfig): Changes {
    match JudgeCancel(s, c, config)
    case CancelAccept(mission) => AcceptCancelChanges(s, c, mission)
    case _ => NO_CHANGES
  }
}
