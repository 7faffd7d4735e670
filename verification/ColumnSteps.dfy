/** What the columns ask of each input of the reducers: exactly when a step leaves only values that they accept. */
module ColumnSteps {
  import opened Texts
  import opened Json
  import opened FleetState
  import opened Dispatch
  import opened Cancel
  import opened Acknowledge
  import opened Telemetry
  import opened Reconnect
  import opened Decisions
  import opened FleetRun
  import opened Sequences
  import opened Columns

  /******* What the columns ask of an input *******/

  predicate RequestFits(d: DispatchInput) {
    Clean(d.missionId) && Clean(d.robotId) && Clean(d.commandId) && Clean(d.correlationId) && Clean(d.causationId)
    && TimeFits(d.now)
  }

  /** A replay writes nothing; a refused request leaves a mission behind, an accepted one also a command. */
  predicate DispatchFits(s: DomainState, d: DispatchInput, config: DomainConfig) {
    if Answered(s, d.idempotencyKey, DispatchSignature(d)) then true
    else if Contradicted(s, d.idempotencyKey, DispatchSignature(d)) then RequestFits(d)
    else if !Acceptable(s, d, config) then RequestFits(d) && Clean(d.idempotencyKey)
    else
      RequestFits(d) && Clean(d.idempotencyKey) && JsonClean(d.payload) && TimeFits(d.issuedAt)
      && TimeFits(d.expiresAt)
  }

  predicate CancellationFits(c: CancelInput) {
    Clean(c.missionId) && Clean(c.commandId) && Clean(c.correlationId) && Clean(c.causationId) && TimeFits(c.now)
  }

  predicate CancelFits(s: DomainState, c: CancelInput, config: DomainConfig) {
    if c.missionId in s.missions && Answered(s, c.idempotencyKey, CancelSignature(c)) then true
    else if !Cancellable(s, c, config) then CancellationFits(c)
    else
      CancellationFits(c) && Clean(c.idempotencyKey) && Clean(c.reason) && TimeFits(c.issuedAt)
      && TimeFits(c.expiresAt)
  }

  /** The id of an acknowledgement is only ever stored in a list of processed ids. */
  predicate AckFits(s: DomainState, ack: Ack) {
    if ack.ackId in s.processedAckIds then true
    else if !Counts(s, ack) then NoNul(ack.ackId)
    else
      NoNul(ack.ackId) && Clean(ack.robotId) && OptClean(ack.reason) && Clean(ack.correlationId)
      && Clean(ack.causationId) && CounterFits(ack.lastSeenCommandSequence) && TimeFits(ack.receivedAt)
  }

  predicate HelloFits(robotId: Id, hello: Option<Hello>, at: Time) {
    Clean(robotId) && TimeFits(at)
    && (hello.Some? ==>
          OptClean(hello.value.edgeAgentVersion) && CounterFits(hello.value.lastSeenCommandSequence.Or(0)))
  }

  /** What the input would write has a form that the columns accept. */
  predicate InputFits(s: DomainState, i: Input, config: DomainConfig) {
    match i
    case DispatchRequest(d) => DispatchFits(s, d, config)
    case CancelRequest(c) => CancelFits(s, c, config)
    case CommandAck(ack) => AckFits(s, ack)
    case MissionTimeout(t) => TimesOut(s, t) ==> TimeFits(t.now) && Clean(t.correlationId)
    case RobotTelemetry(t) =>
      t.eventId !in s.processedEventIds ==>
        TelemetryClean(t) && BatteryFits(t.batteryPercent) && CounterFits(t.lastSeenCommandSequence)
        && TimeFits(t.observedAt) && TimeFits(t.receivedAt)
    case FreshnessCheck(f) =>
      f.robotId in s.robots && s.robots[f.robotId].connectionState != Deserved(s.robots[f.robotId], f.now, config) ==>
        TimeFits(f.now) && OptClean(f.correlationId)
    case ReconnectStarted(r) => r.robotId in s.robots ==> TimeFits(r.now) && Clean(r.correlationId)
    case ReconnectHandshake(h, now, correlationId) =>
      h.edgeSessionId !in s.processedSessionIds ==>
        HandshakeClean(h) && CounterFits(h.lastSeenCommandSequence) && TimeFits(h.lastTelemetryObservedAt)
        && TimeFits(now.Or(h.connectedAt)) && Clean(correlationId)
    case EdgeConnected(robotId, hello, at) => HelloFits(robotId, hello, at)
  }

  /******* The effect of a step on the columns *******/

  predicate ChangesFit(ch: Changes) {
    && (ch.mission.Some? ==> MissionFits(ch.mission.value))
    && (ch.robot.Some? ==> RobotFits(ch.robot.value))
    && (ch.command.Some? ==> CommandFits(ch.command.value))
    && (ch.record.Some? ==> RecordFits(ch.record.value))
    && (ch.ackId.Some? ==> NoNul(ch.ackId.value))
    && (ch.eventId.Some? ==> NoNul(ch.eventId.value))
    && (ch.sessionId.Some? ==> NoNul(ch.sessionId.value))
  }

  lemma NotedFits(seen: seq<Id>, id: Option<Id>)
    requires NoNuls(seen)
    ensures NoNuls(Noted(seen, id)) <==> (id.Some? ==> NoNul(id.value))
  {
    hide NoNul;
    if id.Some? {
      assert Noted(seen, id)[|seen|] == id.value;
    }
  }

  lemma MissionsOfPut(s: DomainState, ch: Changes)
    requires MissionsFit(s.missions)
    ensures MissionsFit(Put(s, ch).missions) <==> (ch.mission.Some? ==> MissionFits(ch.mission.value))
  {
    hide MissionFits;
    assert ch.mission.Some? ==> Put(s, ch).missions[ch.mission.value.missionId] == ch.mission.value;
  }

  lemma RobotsOfPut(s: DomainState, ch: Changes)
    requires RobotsFit(s.robots)
    ensures RobotsFit(Put(s, ch).robots) <==> (ch.robot.Some? ==> RobotFits(ch.robot.value))
  {
    hide RobotFits;
    assert ch.robot.Some? ==> Put(s, ch).robots[ch.robot.value.robotId] == ch.robot.value;
  }

  lemma CommandsOfPut(s: DomainState, ch: Changes)
    requires CommandsFit(s.commands) && CountersFit(s.nextSequence)
    ensures CommandsFit(Put(s, ch).commands) <==> (ch.command.Some? ==> CommandFits(ch.command.value))
    ensures CommandsFit(Put(s, ch).commands) ==> CountersFit(Put(s, ch).nextSequence)
  {
    assert ch.command.Some? && CommandFits(ch.command.value) ==> Clean(ch.command.value.robotId);
    hide CommandFits, Clean;
    assert ch.command.Some? ==> Put(s, ch).commands[ch.command.value.commandId] == ch.command.value;
  }

  lemma RecordsOfPut(s: DomainState, ch: Changes)
    requires RecordsFit(s.idempotencyRecords)
    ensures RecordsFit(Put(s, ch).idempotencyRecords) <==> (ch.record.Some? ==> RecordFits(ch.record.value))
  {
    hide RecordFits;
    assert ch.record.Some? ==>
        Put(s, ch).idempotencyRecords[ch.record.value.idempotencyKey] == ch.record.value;
  }

  lemma ListsOfPut(s: DomainState, ch: Changes)
    requires NoNuls(s.processedAckIds) && NoNuls(s.processedEventIds) && NoNuls(s.processedSessionIds)
    ensures NoNuls(Put(s, ch).processedAckIds) <==> (ch.ackId.Some? ==> NoNul(ch.ackId.value))
    ensures NoNuls(Put(s, ch).processedEventIds) <==> (ch.eventId.Some? ==> NoNul(ch.eventId.value))
    ensures NoNuls(Put(s, ch).processedSessionIds) <==> (ch.sessionId.Some? ==> NoNul(ch.sessionId.value))
    ensures Put(s, ch).domainEvents == s.domainEvents && Put(s, ch).auditEvents == s.auditEvents
  {
    NotedFits(s.processedAckIds, ch.ackId);
    NotedFits(s.processedEventIds, ch.eventId);
    NotedFits(s.processedSessionIds, ch.sessionId);
    hide NoNuls, NoNul, Noted;
  }

  lemma PutFits(s: DomainState, ch: Changes)
    requires RowsFit(s)
    ensures RowsFit(Put(s, ch)) <==> ChangesFit(ch)
  {
    hide Put, MissionsFit, RobotsFit, CommandsFit, RecordsFit, CountersFit, EventsFit, AuditsFit, NoNuls, Noted;
    hide MissionFits, RobotFits, CommandFits, RecordFits, NoNul;
    MissionsOfPut(s, ch);
    RobotsOfPut(s, ch);
    CommandsOfPut(s, ch);
    RecordsOfPut(s, ch);
    ListsOfPut(s, ch);
  }

  lemma {:induction false} DecimalPlain(n: nat)
    ensures Plain(Decimal(n))
  {
    if 10 <= n {
      DecimalPlain(n / 10);
    }
  }

  lemma GeneratedIdsClean(n: nat)
    ensures Clean(DomainEventId(n)) && Clean(AuditEventId(n))
  {
    DecimalPlain(n);
    assert Plain(Padded(n)) && Plain(DOMAIN_EVENT_PREFIX) && Plain(AUDIT_EVENT_PREFIX);
    hide Decimal, Padded, Plain, Clean;
    PlainIsClean(Padded(n));
    CleanBehind(DOMAIN_EVENT_PREFIX, Padded(n));
    CleanBehind(AUDIT_EVENT_PREFIX, Padded(n));
  }

  /** A step fits the columns exactly when its changes and the two records it emits do. */
  lemma AppendFits(s: DomainState, ch: Changes, e: DomainEvent, a: AuditEvent)
    requires RowsFit(s)
    ensures RowsFit(AppendRecords(Put(s, ch), e, a)) <==> ChangesFit(ch) && EventFits(e) && AuditFits(a)
  {
    PutFits(s, ch);
    var p := Put(s, ch);
    var n := AppendRecords(p, e, a);
    assert n.domainEvents[|p.domainEvents|] == e && n.auditEvents[|p.auditEvents|] == a;
    assert p.domainEvents == s.domainEvents && p.auditEvents == s.auditEvents;
    hide Put, ChangesFit, EventFits, AuditFits, RobotsFit, MissionsFit, CommandsFit, RecordsFit, NoNuls, CountersFit;
  }

  /******* Each reducer *******/

  lemma StoredMissionFits(s: DomainState, m: Id)
    requires RowsFit(s) && m in s.missions
    ensures MissionFits(s.missions[m])
  {
  }

  lemma StoredRobotFits(s: DomainState, r: Id)
    requires RowsFit(s) && r in s.robots
    ensures RobotFits(s.robots[r])
  {
  }

  lemma StoredCommandFits(s: DomainState, c: Id)
    requires RowsFit(s) && c in s.commands
    ensures CommandFits(s.commands[c])
  {
  }

  lemma MaxFits(a: nat, b: nat)
    requires CounterFits(a)
    ensures CounterFits(Max(a, b)) <==> CounterFits(b)
  {
  }

  /** What a refusal adds comes from the request's times or from the stored robot. */
  lemma RefusalClean(s: DomainState, d: DispatchInput, config: DomainConfig)
    requires RobotsFit(s.robots)
    ensures var refusal := DispatchRefusal(s, d, config); refusal.Some? ==> DetailsClean(refusal.value.details)
  {
    var robot := s.RobotOf(d.robotId);
    assert robot.Some? ==> OptClean(robot.value.activeMissionId);
    hide RobotsFit, PayloadIssues, IsRisky, Clean, IsActive;
  }

  lemma JudgedStored(s: DomainState, d: DispatchInput, config: DomainConfig)
    requires RobotsFit(s.robots) && RecordsFit(s.idempotencyRecords)
    ensures var v := Judge(s, d, config);
            && (v.Conflict? ==> Clean(v.existing.commandId))
            && (v.Refuse? ==> DetailsClean(v.refusal.details))
  {
    RefusalClean(s, d, config);
    hide DispatchSignature, DispatchRefusal, Clean, DetailsClean, RobotsFit;
  }

  lemma DispatchRejectionFits(s: DomainState, d: DispatchInput, refusal: Refusal, mission: Option<Mission>)
    requires RowsFit(s) && DetailsClean(refusal.details)
    requires mission.Some? ==> mission.value == RejectedMission(d, refusal)
    ensures RowsFit(RejectDispatch(s, d, refusal, mission).state)
            <==> RequestFits(d) && (mission.Some? ==> Clean(d.idempotencyKey))
  {
    var t := RejectDispatch(s, d, refusal, mission);
    AppendFits(s, NO_CHANGES.(mission := mission), t.domainEvents[0], t.auditEvents[0]);
    GeneratedIdsClean(|s.domainEvents| + 1);
    GeneratedIdsClean(|s.auditEvents| + 1);
    hide RowsFit, Put, Clean, TimeFits, DetailsClean, TargetPose, DomainEventId, AuditEventId, CounterFits;
  }

  lemma AcceptanceFits(s: DomainState, d: DispatchInput)
    requires RowsFit(s) && 1 <= NextSequence(s, d.robotId) <= MAX_BIGINT
    ensures RowsFit(AcceptDispatch(s, d).state)
            <==> RequestFits(d) && Clean(d.idempotencyKey) && JsonClean(d.payload) && TimeFits(d.issuedAt)
                 && TimeFits(d.expiresAt)
  {
    hide RowsFit, Put, Clean, TimeFits, TargetPose, DomainEventId, AuditEventId, JsonClean, NextSequence;
    hide DispatchSignature;
    AssignedRobotFits(s, d);
    if d.robotId in s.robots {
      StoredRobotFits(s, d.robotId);
      assert Clean(s.robots[d.robotId].robotId);
    }
    SignatureOf(d);
    hide AssignedRobot;
    var t := AcceptDispatch(s, d);
    GeneratedIdsClean(|s.domainEvents| + 1);
    GeneratedIdsClean(|s.auditEvents| + 1);
    AppendFits(s, AcceptChanges(s, d), t.domainEvents[0], t.auditEvents[0]);
    hide RobotFits;
  }

  lemma SignatureOf(d: DispatchInput)
    ensures Clean(DispatchSignature(d))
  {
    hide Clean, Print, SignedRequest;
    PrintClean(SignedRequest(d), Less);
  }

  lemma AssignedRobotFits(s: DomainState, d: DispatchInput)
    requires RowsFit(s)
    ensures RobotFits(AssignedRobot(s.RobotOf(d.robotId), d))
            <==> && Clean(if d.robotId in s.robots then s.robots[d.robotId].robotId else d.robotId)
                 && Clean(d.missionId) && TimeFits(d.now)
  {
    hide Clean, TimeFits, BatteryFits;
  }

  lemma DispatchStores(s: DomainState, d: DispatchInput, config: DomainConfig)
    requires RowsFit(s)
    requires Judge(s, d, config).Accept? ==> 1 <= NextSequence(s, d.robotId) <= MAX_BIGINT
    ensures RowsFit(DispatchMissionCommand(s, d, config).state) <==> DispatchFits(s, d, config)
  {
    JudgedStored(s, d, config);
    JudgeExactly(s, d, config);
    hide RowsFit, RequestFits, Judge, DetailsClean, RejectDispatch, AcceptDispatch, NextSequence, Clean, JsonClean;
    hide RejectedMission, Contradicted, Answered, Proper, Sendable, DispatchSignature;
    match Judge(s, d, config)
    case Conflict(existing) =>
      DispatchRejectionFits(
        s, d, Refusal(IDEMPOTENCY_KEY_REUSE_CONFLICT, false, ExistingCommand(existing.commandId), None), None);
    case Replay(_) =>
    case Refuse(refusal) => DispatchRejectionFits(s, d, refusal, Some(RejectedMission(d, refusal)));
    case Accept => AcceptanceFits(s, d);
  }

  lemma CancellationRejectionFits(s: DomainState, c: CancelInput, reason: DispatchRejection, mission: Option<Mission>)
    requires RowsFit(s) && KeyedById(s)
    requires mission.Some? ==> c.missionId in s.missions && mission.value == s.missions[c.missionId]
    ensures RowsFit(RejectCancellation(s, c, reason, mission).state) <==> CancellationFits(c)
  {
    var t := RejectCancellation(s, c, reason, mission);
    AppendFits(s, NO_CHANGES, t.domainEvents[0], t.auditEvents[0]);
    GeneratedIdsClean(|s.domainEvents| + 1);
    GeneratedIdsClean(|s.auditEvents| + 1);
    assert mission.Some? ==> MissionFits(mission.value) && mission.value.missionId == c.missionId;
    hide RowsFit, KeyedById, Put, Clean, TimeFits, DomainEventId, AuditEventId, CounterFits;
  }

  lemma CancelAcceptanceFits(s: DomainState, c: CancelInput, mission: Mission)
    requires RowsFit(s) && KeyedById(s) && c.missionId in s.missions && mission == s.missions[c.missionId]
    requires 1 <= CancelSequence(s, mission) <= MAX_BIGINT
    ensures RowsFit(AcceptCancellation(s, c, mission).state)
            <==> CancellationFits(c) && Clean(c.idempotencyKey) && Clean(c.reason) && TimeFits(c.issuedAt)
                 && TimeFits(c.expiresAt)
  {
    var t := AcceptCancellation(s, c, mission);
    AppendFits(s, AcceptCancelChanges(s, c, mission), t.domainEvents[0], t.auditEvents[0]);
    GeneratedIdsClean(|s.domainEvents| + 1);
    GeneratedIdsClean(|s.auditEvents| + 1);
    CancelSignatureOf(c);
    ReasonFits(c);
    assert MissionFits(mission) && mission.missionId == c.missionId;
    hide RowsFit, KeyedById, Put, Clean, TimeFits, DomainEventId, AuditEventId, JsonClean, CancelSequence;
    hide CancelSignature, ReasonPayload;
  }

  lemma CancelSignatureOf(c: CancelInput)
    ensures Clean(CancelSignature(c))
  {
    hide Clean, Print, SignedCancel;
    PrintClean(SignedCancel(c), Less);
  }

  lemma ReasonFits(c: CancelInput)
    ensures JsonClean(ReasonPayload(c)) <==> Clean(c.reason)
  {
    assert Plain(REASON);
    PlainIsClean(REASON);
    hide Clean, Plain;
    assert ReasonPayload(c).members[0].value == JString(c.reason);
  }

  /** The verdict on a cancellation carries the stored mission. */
  lemma JudgedMission(s: DomainState, c: CancelInput, config: DomainConfig)
    ensures match JudgeCancel(s, c, config)
            case CancelConflict(mission) => c.missionId in s.missions && mission == s.missions[c.missionId]
            case CancelRefuse(_, mission) => c.missionId in s.missions && mission == s.missions[c.missionId]
            case _ => true
  {
    hide CancelSignature, CancelRefusal, Settles;
  }

  lemma CancelStores(s: DomainState, c: CancelInput, config: DomainConfig)
    requires RowsFit(s) && KeyedById(s)
    requires JudgeCancel(s, c, config).CancelAccept? ==>
               1 <= CancelSequence(s, s.missions[c.missionId]) <= MAX_BIGINT
    ensures RowsFit(RequestMissionCancellation(s, c, config).state) <==> CancelFits(s, c, config)
  {
    hide RowsFit, KeyedById, CancellationFits, RejectCancellation, AcceptCancellation, CancelSequence, Clean;
    hide CancelSignature, JudgeCancel, Cancellable, Answered;
    JudgeCancelExactly(s, c, config);
    JudgedMission(s, c, config);
    match JudgeCancel(s, c, config)
    case CancelUnknown => CancellationRejectionFits(s, c, UNKNOWN_MISSION, None);
    case CancelConflict(mission) =>
      CancellationRejectionFits(s, c, IDEMPOTENCY_KEY_REUSE_CONFLICT, Some(mission));
    case CancelReplays(_) =>
    case CancelRefuse(reason, mission) => CancellationRejectionFits(s, c, reason, Some(mission));
    case CancelAccept(mission) => CancelAcceptanceFits(s, c, mission);
  }

  lemma AckedChangesFit(s: DomainState, ack: Ack, command: Command, mission: Mission)
    requires RowsFit(s) && MissionFits(mission) && Clean(command.robotId) && Clean(ack.commandId)
    ensures ChangesFit(AckedChanges(s, ack, command, mission))
            <==> NoNul(ack.ackId) && OptClean(ack.reason) && CounterFits(ack.lastSeenCommandSequence)
                 && TimeFits(ack.receivedAt)
  {
    assert Clean(mission.missionId);
    AckedMissionFits(ack, command, mission);
    AckedRobotFits(s, ack, command, AckedMission(ack, command, mission));
    hide Clean, TimeFits, AckedRobot, RobotFits, NoNul, CounterFits, AckedMission, MissionFits, RobotsFit;
  }

  lemma FreshAckFits(s: DomainState, ack: Ack, command: Command, mission: Mission)
    requires RowsFit(s) && ack.commandId in s.commands && command == s.commands[ack.commandId]
    requires command.commandId == ack.commandId
    requires command.missionId in s.missions && mission == s.missions[command.missionId]
    ensures RowsFit(ProcessAck(s, ack, command, mission).state)
            <==> NoNul(ack.ackId) && Clean(ack.robotId) && OptClean(ack.reason) && Clean(ack.correlationId)
                 && Clean(ack.causationId) && CounterFits(ack.lastSeenCommandSequence) && TimeFits(ack.receivedAt)
  {
    hide RowsFit, Put, Clean, TimeFits, DomainEventId, AuditEventId, LifecycleFromAck, NoNul, CounterFits, JsonClean;
    StoredMissionFits(s, command.missionId);
    StoredCommandFits(s, ack.commandId);
    assert Clean(mission.missionId) && Clean(command.robotId) && Clean(ack.commandId);
    AckedMissionFits(ack, command, mission);
    AckedChangesFit(s, ack, command, mission);
    hide AckedMission, MissionFits, CommandFits, AckedChanges, ChangesFit;
    var t := ProcessAck(s, ack, command, mission);
    AppendFits(s, AckedChanges(s, ack, command, mission), t.domainEvents[0], t.auditEvents[0]);
    GeneratedIdsClean(|s.domainEvents| + 1);
    GeneratedIdsClean(|s.auditEvents| + 1);
  }

  lemma AckedMissionFits(ack: Ack, command: Command, mission: Mission)
    requires MissionFits(mission) && Clean(ack.commandId)
    ensures MissionFits(AckedMission(ack, command, mission))
            <==> OptClean(ack.reason) && CounterFits(ack.lastSeenCommandSequence) && TimeFits(ack.receivedAt)
    ensures AckedMission(ack, command, mission).missionId == mission.missionId
  {
    hide Clean, TimeFits, CounterFits, LifecycleFromAck;
  }

  lemma AckedRobotFits(s: DomainState, ack: Ack, command: Command, mission: Mission)
    requires RobotsFit(s.robots) && Clean(command.robotId) && Clean(mission.missionId) && Clean(ack.commandId)
    ensures RobotFits(AckedRobot(s.RobotOf(command.robotId), ack, command, mission))
            <==> CounterFits(ack.lastSeenCommandSequence) && TimeFits(ack.receivedAt)
  {
    if command.robotId in s.robots {
      assert RobotFits(s.robots[command.robotId]);
      MaxFits(s.robots[command.robotId].lastSeenCommandSequence, ack.lastSeenCommandSequence);
    }
    hide RobotsFit, Clean, TimeFits, BatteryFits, IsActive, Max, CounterFits;
  }

  lemma AckStores(s: DomainState, ack: Ack)
    requires RowsFit(s) && KeyedById(s)
    ensures RowsFit(ApplyCommandAck(s, ack).state) <==> AckFits(s, ack)
  {
    PutFits(s, NO_CHANGES.(ackId := Some(ack.ackId)));
    hide RowsFit, Put, NoNul, Clean, ProcessAck, TimeFits, CounterFits, JudgeAck;
    JudgeAckExactly(s, ack);
    match JudgeAck(s, ack)
    case AckFresh(command, mission) => FreshAckFits(s, ack, command, mission);
    case _ =>
  }

  lemma TimedOutMissionFits(m: Mission, t: TimeoutInput)
    requires MissionFits(m)
    ensures MissionFits(TimedOutMission(m, t)) <==> TimeFits(t.now)
  {
    hide Clean, TimeFits, CounterFits;
  }

  /** What timing out leaves behind. */
  lemma TimingOutLeaves(s: DomainState, t: TimeoutInput)
    requires TimesOut(s, t)
    ensures var r := ApplyMissionTimeout(s, t);
            && |r.domainEvents| == |r.auditEvents| == 1
            && r.state == AppendRecords(Put(s, TimeoutChanges(s, t)), r.domainEvents[0], r.auditEvents[0])
            && TimeoutChanges(s, t) == NO_CHANGES.(mission := Some(TimedOutMission(s.missions[t.missionId], t)))
  {
    hide Put, DomainEventId, AuditEventId, TimedOutMission;
  }

  lemma TimingOutRecordsFit(s: DomainState, t: TimeoutInput)
    requires TimesOut(s, t) && Clean(t.missionId) && Clean(s.missions[t.missionId].robotId)
    requires OptClean(s.missions[t.missionId].currentCommandId)
    ensures var r := ApplyMissionTimeout(s, t);
            && |r.domainEvents| == |r.auditEvents| == 1
            && (EventFits(r.domainEvents[0]) && AuditFits(r.auditEvents[0]) <==>
                  TimeFits(t.now) && Clean(t.correlationId))
  {
    hide Put, Clean, TimeFits, DomainEventId, AuditEventId, TimedOutMission;
    GeneratedIdsClean(|s.domainEvents| + 1);
    GeneratedIdsClean(|s.auditEvents| + 1);
  }

  lemma TimingOutStores(s: DomainState, t: TimeoutInput)
    requires RowsFit(s) && KeyedById(s) && TimesOut(s, t)
    ensures RowsFit(ApplyMissionTimeout(s, t).state) <==> TimeFits(t.now) && Clean(t.correlationId)
  {
    hide RowsFit, Clean, TimeFits, EventFits, AuditFits, MissionFits, TimedOutMission, AppendRecords, Put;
    hide TimeoutChanges, ApplyMissionTimeout;
    var r, m := ApplyMissionTimeout(s, t), s.missions[t.missionId];
    StoredMissionFits(s, t.missionId);
    TimedOutMissionFits(m, t);
    MissionIdsClean(m);
    assert m.missionId == t.missionId;
    hide KeyedById;
    TimingOutLeaves(s, t);
    TimingOutRecordsFit(s, t);
    hide TimesOut;
    AppendFits(s, TimeoutChanges(s, t), r.domainEvents[0], r.auditEvents[0]);
  }

  lemma MissionIdsClean(m: Mission)
    requires MissionFits(m)
    ensures Clean(m.missionId) && Clean(m.robotId) && OptClean(m.currentCommandId)
  {
    hide Clean;
  }

  lemma TimeoutStores(s: DomainState, t: TimeoutInput)
    requires RowsFit(s) && KeyedById(s)
    ensures RowsFit(ApplyMissionTimeout(s, t).state)
            <==> (TimesOut(s, t) ==> TimeFits(t.now) && Clean(t.correlationId))
  {
    TimeoutExactly(s, t);
    hide RowsFit, KeyedById, ApplyMissionTimeout, TimesOut, Clean, TimeFits;
    if TimesOut(s, t) {
      TimingOutStores(s, t);
    }
  }

  lemma ReportedMissionFits(s: DomainState, t: TelemetryReport)
    requires MissionsFit(s.missions) && TelemetryClean(t) && CounterFits(t.lastSeenCommandSequence)
    requires TimeFits(t.receivedAt)
    ensures var m := s.MissionOf(t.currentMissionId); m.Some? ==> MissionFits(ReportedMission(m.value, t))
  {
    hide Clean, TimeFits, CounterFits;
  }

  lemma ReportedRobotFits(s: DomainState, t: TelemetryReport)
    requires RobotsFit(s.robots)
    ensures RobotFits(ReportedRobot(s.RobotOf(t.robotId), t))
            <==> && Clean(t.robotId) && OptClean(t.currentMissionId) && OptClean(t.lastAcknowledgedCommandId)
                 && Clean(t.edgeAgentVersion) && BatteryFits(t.batteryPercent)
                 && CounterFits(t.lastSeenCommandSequence) && TimeFits(t.observedAt) && TimeFits(t.receivedAt)
  {
    var seen := if t.robotId in s.robots then s.robots[t.robotId].lastSeenCommandSequence else 0;
    if t.robotId in s.robots {
      assert RobotFits(s.robots[t.robotId]);
    }
    MaxFits(seen, t.lastSeenCommandSequence);
    hide RobotsFit, Clean, TimeFits, BatteryFits, CounterFits, Max;
  }

  lemma TelemetryStores(s: DomainState, t: TelemetryReport)
    requires RowsFit(s) && t.eventId !in s.processedEventIds
    ensures RowsFit(IngestRobotTelemetry(s, t).state)
            <==> && TelemetryClean(t) && BatteryFits(t.batteryPercent) && CounterFits(t.lastSeenCommandSequence)
                 && TimeFits(t.observedAt) && TimeFits(t.receivedAt)
  {
    var r := IngestRobotTelemetry(s, t);
    AppendFits(s, TelemetryChanges(s, t), r.domainEvents[0], r.auditEvents[0]);
    GeneratedIdsClean(|s.domainEvents| + 1);
    GeneratedIdsClean(|s.auditEvents| + 1);
    PlainPrefixes();
    CleanBehind(CORRELATION_PREFIX, t.eventId);
    ReportedRobotFits(s, t);
    if TelemetryClean(t) && CounterFits(t.lastSeenCommandSequence) && TimeFits(t.receivedAt) {
      ReportedMissionFits(s, t);
    }
    assert Clean(t.eventId) ==> NoNul(t.eventId);
    hide RowsFit, Put, Clean, TimeFits, DomainEventId, AuditEventId, CounterFits, BatteryFits, NoNul, ReportedRobot;
    hide ReportedMission, RobotFits, MissionFits, Plain;
  }

  lemma StatusFits(s: DomainState, robot: Robot, status: OperationalStatus, now: Time)
    requires MissionsFit(s.missions) && TimeFits(now)
    ensures var m := WithStatus(CurrentActive(s, robot), status, now); m.Some? ==> MissionFits(m.value)
  {
    hide Clean, TimeFits, CounterFits, IsActive;
  }

  lemma CurrentIsClean(s: DomainState, robot: Robot)
    requires RowsFit(s)
    ensures var m := CurrentActive(s, robot); m.Some? ==> Clean(m.value.missionId)
  {
    hide Clean, TimeFits, CounterFits, IsActive;
  }

  lemma MovedRobotFits(robot: Robot, connection: Connection, now: Time)
    requires RobotFits(robot)
    ensures RobotFits(robot.(connectionState := connection, updatedAt := now)) <==> TimeFits(now)
  {
    hide Clean, TimeFits, BatteryFits;
  }

  lemma FreshnessChangesFit(s: DomainState, f: FreshnessInput, config: DomainConfig)
    requires RowsFit(s) && f.robotId in s.robots && RobotFits(s.robots[f.robotId])
    requires FreshConnection(s.robots[f.robotId], f.now, config) != s.robots[f.robotId].connectionState
    ensures ChangesFit(FreshnessChanges(s, f, config)) <==> TimeFits(f.now)
  {
    var robot := s.robots[f.robotId];
    var connection := FreshConnection(robot, f.now, config);
    MovedRobotFits(robot, connection, f.now);
    if TimeFits(f.now) {
      StatusFits(s, robot, if connection.ONLINE? then NOMINAL else DEGRADED_STATUS, f.now);
    }
    hide TimeFits, RobotFits, MissionFits, CurrentActive, WithStatus, FreshConnection, MissionsFit;
  }

  lemma FreshnessStores(s: DomainState, f: FreshnessInput, config: DomainConfig)
    requires RowsFit(s) && KeyedById(s) && f.robotId in s.robots
    requires s.robots[f.robotId].connectionState != Deserved(s.robots[f.robotId], f.now, config)
    ensures RowsFit(EvaluateTelemetryFreshness(s, f, config).state)
            <==> TimeFits(f.now) && OptClean(f.correlationId)
  {
    hide RowsFit, Put, Clean, TimeFits, DomainEventId, AuditEventId, CurrentActive, FreshConnection, Plain, Deserved;
    FreshnessExactly(s, f, config);
    var robot := s.robots[f.robotId];
    StoredRobotFits(s, f.robotId);
    assert Clean(f.robotId);
    CurrentIsClean(s, robot);
    FreshnessChangesFit(s, f, config);
    PlainPrefixes();
    CleanBehind(FRESHNESS_PREFIX, f.robotId);
    hide KeyedById, RobotFits, FreshnessChanges, ChangesFit;
    GeneratedIdsClean(|s.domainEvents| + 1);
    GeneratedIdsClean(|s.auditEvents| + 1);
    var r := EvaluateTelemetryFreshness(s, f, config);
    AppendFits(s, FreshnessChanges(s, f, config), r.domainEvents[0], r.auditEvents[0]);
  }

  lemma PlainPrefixes()
    ensures Plain(CORRELATION_PREFIX) && Plain(FRESHNESS_PREFIX) && Plain(DEFAULT_AGENT_VERSION)
  {
  }

  lemma ReconnectStores(s: DomainState, c: ReconnectInput)
    requires RowsFit(s) && KeyedById(s) && c.robotId in s.robots
    ensures RowsFit(BeginReconnect(s, c).state) <==> TimeFits(c.now) && Clean(c.correlationId)
  {
    var robot := s.robots[c.robotId];
    var r := BeginReconnect(s, c);
    AppendFits(s, ReconnectChanges(s, c), r.domainEvents[0], r.auditEvents[0]);
    GeneratedIdsClean(|s.domainEvents| + 1);
    GeneratedIdsClean(|s.auditEvents| + 1);
    assert RobotFits(robot) && robot.robotId == c.robotId;
    assert Clean(c.robotId);
    MovedRobotFits(robot, RECONNECTING, c.now);
    CurrentIsClean(s, robot);
    if TimeFits(c.now) {
      StatusFits(s, robot, RECONNECTING_STATUS, c.now);
    }
    hide RowsFit, KeyedById, Put, Clean, TimeFits, DomainEventId, AuditEventId, CounterFits, RobotFits, MissionFits;
    hide CurrentActive, WithStatus;
  }

  lemma AppliedFits(m: Mission, decision: Decision, at: Time)
    requires MissionFits(m)
    ensures MissionFits(ApplyReconciliation(m, decision, at)) <==> TimeFits(at)
    ensures ApplyReconciliation(m, decision, at).missionId == m.missionId
  {
    hide Clean, TimeFits, CounterFits, OptClean;
  }

  lemma ReconciledMissionFits(s: DomainState, h: HandshakeReport, at: Time)
    requires MissionsFit(s.missions)
    ensures var m := ReconciledMission(s, h, at);
            m.Some? ==> Clean(m.value.missionId) && (MissionFits(m.value) <==> TimeFits(at))
  {
    var decision := DecideReconciliation(s, h);
    var reported, current := s.MissionOf(h.reportedMissionId), CurrentMission(s, h.robotId);
    if reported.Some? {
      AppliedFits(reported.value, decision, at);
    }
    if current.Some? {
      AppliedFits(current.value, decision, at);
    }
    assert reported.Some? ==> Clean(reported.value.missionId);
    assert current.Some? ==> Clean(current.value.missionId);
    hide Clean, TimeFits, CounterFits, DecideReconciliation, MissionFits, ApplyReconciliation;
  }

  lemma ReconciledRobotFits(s: DomainState, h: HandshakeReport, outcome: Outcome, mission: Option<Mission>, at: Time)
    requires RobotsFit(s.robots) && (mission.Some? ==> Clean(mission.value.missionId))
    ensures RobotFits(ReconciledRobot(s.RobotOf(h.robotId), h, outcome, mission, at))
            <==> && Clean(h.robotId) && OptClean(h.lastAcknowledgedCommandId) && Clean(h.edgeAgentVersion)
                 && CounterFits(h.lastSeenCommandSequence) && TimeFits(h.lastTelemetryObservedAt) && TimeFits(at)
  {
    var seen := if h.robotId in s.robots then s.robots[h.robotId].lastSeenCommandSequence else 0;
    if h.robotId in s.robots {
      assert RobotFits(s.robots[h.robotId]);
    }
    MaxFits(seen, h.lastSeenCommandSequence);
    hide RobotsFit, Clean, TimeFits, BatteryFits, CounterFits, Max, IsActive;
  }

  lemma HandshakeStores(s: DomainState, h: HandshakeReport, now: Option<Time>, correlationId: Id)
    requires RowsFit(s) && h.edgeSessionId !in s.processedSessionIds
    ensures RowsFit(ProcessReconnectHandshake(s, h, now, correlationId).state)
            <==> && HandshakeClean(h) && CounterFits(h.lastSeenCommandSequence)
                 && TimeFits(h.lastTelemetryObservedAt) && TimeFits(now.Or(h.connectedAt)) && Clean(correlationId)
  {
    var at := now.Or(h.connectedAt);
    var r := ProcessReconnectHandshake(s, h, now, correlationId);
    AppendFits(s, HandshakeChanges(s, h, now), r.domainEvents[0], r.auditEvents[0]);
    GeneratedIdsClean(|s.domainEvents| + 1);
    GeneratedIdsClean(|s.auditEvents| + 1);
    ReconciledMissionFits(s, h, at);
    ReconciledRobotFits(s, h, DecideReconciliation(s, h).outcome, ReconciledMission(s, h, at), at);
    assert Clean(h.edgeSessionId) ==> NoNul(h.edgeSessionId);
    hide RowsFit, Put, Clean, TimeFits, DomainEventId, AuditEventId, CounterFits, RobotFits, MissionFits, NoNul;
    hide DecideReconciliation, ReconciledMission, ReconciledRobot;
  }

  lemma HelloStores(s: DomainState, robotId: Id, hello: Option<Hello>, at: Time)
    requires RowsFit(s) && KeyedById(s)
    ensures RowsFit(Put(s, ConnectChanges(s, robotId, hello, at))) <==> HelloFits(robotId, hello, at)
  {
    PutFits(s, ConnectChanges(s, robotId, hello, at));
    ConnectedRobotFits(s, robotId, hello, at);
    hide RowsFit, KeyedById, Put, RobotFits, ConnectedRobot, HelloFits;
  }

  lemma ConnectedRobotFits(s: DomainState, robotId: Id, hello: Option<Hello>, at: Time)
    requires RobotsFit(s.robots) && KeyedById(s)
    ensures RobotFits(ConnectedRobot(s.RobotOf(robotId), robotId, hello, at)) <==> HelloFits(robotId, hello, at)
  {
    var seen := if robotId in s.robots then s.robots[robotId].lastSeenCommandSequence else 0;
    if robotId in s.robots {
      assert RobotFits(s.robots[robotId]) && s.robots[robotId].robotId == robotId;
    }
    MaxFits(seen, if hello.Some? then hello.value.lastSeenCommandSequence.Or(0) else 0);
    PlainPrefixes();
    PlainIsClean(DEFAULT_AGENT_VERSION);
    assert BatteryFits(80.0) && CounterFits(0);
    hide RobotsFit, KeyedById, Clean, TimeFits, BatteryFits, CounterFits, Max, Plain;
  }

  /******* Any step *******/

  /** The sequence of a new command of a state that can be read is safe, or one past. */
  lemma IssuedSequence(s: DomainState, i: Input, config: DomainConfig)
    requires SequencesInv(s) && Readable(s)
    ensures var ch := StepChanges(s, i, config);
            ch.command.Some? ==> 1 <= ch.command.value.sequence <= MAX_SAFE_INTEGER + 1
  {
    hide GaplessFrom, UsedOnce, TargetPose, PayloadIssues, DispatchSignature, CancelSignature, ReasonPayload;
    hide AssignedRobot, Judge, CancelRefusal, Settles;
    forall r | r in s.nextSequence ensures 1 <= s.nextSequence[r] {
      CounterPositive(s, r);
    }
  }

  lemma CounterPositive(s: DomainState, r: Id)
    requires SequencesInv(s) && r in s.nextSequence
    ensures 1 <= s.nextSequence[r]
  {
    var first :| GaplessFrom(s, r, first);
  }

  lemma IssuedByDispatch(s: DomainState, d: DispatchInput, config: DomainConfig)
    requires SequencesInv(s) && Readable(s)
    ensures Judge(s, d, config).Accept? ==> 1 <= NextSequence(s, d.robotId) <= MAX_BIGINT
  {
    hide SequencesInv, Readable, Judge, DispatchSignature, AssignedRobot;
    IssuedSequence(s, DispatchRequest(d), config);
  }

  lemma IssuedByCancel(s: DomainState, c: CancelInput, config: DomainConfig)
    requires SequencesInv(s) && Readable(s)
    ensures JudgeCancel(s, c, config).CancelAccept? ==> 1 <= CancelSequence(s, s.missions[c.missionId]) <= MAX_BIGINT
  {
    hide SequencesInv, Readable, CancelSignature, CancelSequence, CancelRefusal, ReasonPayload, Settles;
    IssuedSequence(s, CancelRequest(c), config);
  }

  lemma UnchangedSteps(s: DomainState, i: Input, config: DomainConfig)
    requires match i
             case RobotTelemetry(t) => t.eventId in s.processedEventIds
             case FreshnessCheck(f) =>
               f.robotId in s.robots ==>
                 s.robots[f.robotId].connectionState == Deserved(s.robots[f.robotId], f.now, config)
             case ReconnectStarted(r) => r.robotId !in s.robots
             case ReconnectHandshake(h, _, _) => h.edgeSessionId in s.processedSessionIds
             case _ => false
    ensures Step(s, i, config) == s
  {
    if i.FreshnessCheck? {
      FreshnessExactly(s, i.freshness, config);
    }
    hide FreshConnection;
  }

  /** After a step every value fits its column exactly when the input is one whose values do. */
  lemma StepFits(s: DomainState, i: Input, config: DomainConfig)
    requires RowsFit(s) && SequencesInv(s) && Readable(s)
    ensures RowsFit(Step(s, i, config)) <==> InputFits(s, i, config)
  {
    assert KeyedById(s);
    hide RowsFit, SequencesInv, Readable, KeyedById, DispatchFits, CancelFits, AckFits, HelloFits, Put;
    hide DispatchMissionCommand, RequestMissionCancellation, ApplyCommandAck, ApplyMissionTimeout, TimesOut;
    hide IngestRobotTelemetry, EvaluateTelemetryFreshness, BeginReconnect, ProcessReconnectHandshake;
    hide Clean, TelemetryClean, HandshakeClean, BatteryFits, TimeFits, CounterFits, Deserved;
    match i
    case DispatchRequest(d) => IssuedByDispatch(s, d, config); DispatchStores(s, d, config);
    case CancelRequest(c) => IssuedByCancel(s, c, config); CancelStores(s, c, config);
    case CommandAck(ack) => AckStores(s, ack);
    case MissionTimeout(t) => TimeoutStores(s, t);
    case RobotTelemetry(t) =>
      if t.eventId in s.processedEventIds {
        UnchangedSteps(s, i, config);
      } else {
        TelemetryStores(s, t);
      }
    case FreshnessCheck(f) =>
      if f.robotId in s.robots
         && s.robots[f.robotId].connectionState != Deserved(s.robots[f.robotId], f.now, config) {
        FreshnessStores(s, f, config);
      } else {
        UnchangedSteps(s, i, config);
      }
    case ReconnectStarted(r) =>
      if r.robotId in s.robots {
        ReconnectStores(s, r);
      } else {
        UnchangedSteps(s, i, config);
      }
    case ReconnectHandshake(h, now, correlationId) =>
      if h.edgeSessionId in s.processedSessionIds {
        UnchangedSteps(s, i, config);
      } else {
        HandshakeStores(s, h, now, correlationId);
      }
    case EdgeConnected(robotId, hello, at) => HelloStores(s, robotId, hello, at);
  }
}
