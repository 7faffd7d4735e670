/** The reducers as one step function over the aggregate, and runs of any length. */
module FleetRun {
  import opened Texts
  import opened FleetState
  import opened Dispatch
  import opened Cancel
  import opened Acknowledge
  import opened Telemetry
  import opened Reconnect

  datatype Input =
    | DispatchRequest(d: DispatchInput)
    | CancelRequest(c: CancelInput)
    | CommandAck(ack: Ack)
    | MissionTimeout(timeout: TimeoutInput)
    | RobotTelemetry(telemetry: TelemetryReport)
    | FreshnessCheck(freshness: FreshnessInput)
    | ReconnectStarted(reconnect: ReconnectInput)
    | ReconnectHandshake(handshake: HandshakeReport, decidedAt: Option<Time>, correlationId: Id)
    | EdgeConnected(robotId: Id, hello: Option<Hello>, at: Time)

  const DEFAULT_AGENT_VERSION: Id := Ascii("0.1.0")

  /** The service's own update when an edge says hello. */
  function ConnectedRobot(existing: Option<Robot>, robotId: Id, hello: Option<Hello>, at: Time): Robot {
    var seen := if hello.Some? then hello.value.lastSeenCommandSequence.Or(0) else 0;
    var version := if hello.Some? then hello.value.edgeAgentVersion else None;
    if existing.Some? then
      existing.value.(connectionState := ONLINE, updatedAt := at,
                      lastSeenCommandSequence := Max(existing.value.lastSeenCommandSequence, seen),
                      edgeAgentVersion := version.OrElse(existing.value.edgeAgentVersion))
    else
      Robot(robotId, ONLINE, at, None, Some(OK), Some(80.0), None, Some(at), Some(at), None, seen,
            Some(version.Or(DEFAULT_AGENT_VERSION)))
  }

  function ConnectChanges(s: DomainState, robotId: Id, hello: Option<Hello>, at: Time): Changes {
    NO_CHANGES.(robot := Some(ConnectedRobot(s.RobotOf(robotId), robotId, hello, at)))
  }

  function Step(s: DomainState, i: Input, config: DomainConfig): DomainState {
    match i
    case DispatchRequest(d) => DispatchMissionCommand(s, d, config).state
    case CancelRequest(c) => RequestMissionCancellation(s, c, config).state
    case CommandAck(ack) => ApplyCommandAck(s, ack).state
    case MissionTimeout(t) => ApplyMissionTimeout(s, t).state
    case RobotTelemetry(t) => IngestRobotTelemetry(s, t).state
    case FreshnessCheck(f) => EvaluateTelemetryFreshness(s, f, config).state
    case ReconnectStarted(r) => BeginReconnect(s, r).state
    case ReconnectHandshake(h, now, correlationId) => ProcessReconnectHandshake(s, h, now, correlationId).state
    case EdgeConnected(robotId, hello, at) => Put(s, ConnectChanges(s, robotId, hello, at))
  }

  function Run(s: DomainState, inputs: seq<Input>, config: DomainConfig): DomainState
    decreases |inputs|
  {
    if inputs == [] then s else Run(Step(s, inputs[0], config), inputs[1..], config)
  }

  predicate ActiveIn(s: DomainState, m: Id) {
    m in s.missions && IsActive(s.missions[m].lifecycle)
  }

  lemma {:induction false} RunAppend(s: DomainState, before: seq<Input>, after: seq<Input>, config: DomainConfig)
    ensures Run(s, before + after, config) == Run(Run(s, before, config), after, config)
    decreases |before|
  {
    hide Step;
    if before == [] {
      assert before + after == after;
    } else {
      RunAppend(Step(s, before[0], config), before[1..], after, config);
      assert (before + after)[1..] == before[1..] + after;
    }
  }

  lemma RunFirst(s: DomainState, i: Input, rest: seq<Input>, config: DomainConfig)
    ensures Run(s, [i] + rest, config) == Run(Step(s, i, config), rest, config)
  {
    hide Step;
    assert ([i] + rest)[1..] == rest;
  }

  lemma RunOne(s: DomainState, i: Input, config: DomainConfig)
    ensures Run(s, [i], config) == Step(s, i, config)
  {
    hide Step;
    assert [i] == [i] + [];
    RunFirst(s, i, [], config);
  }

  /******* The whole effect of a step *******/

  /** The entries a step replaces. */
  function StepChanges(s: DomainState, i: Input, config: DomainConfig): Changes {
    match i
    case DispatchRequest(d) => DispatchChanges(s, d, config)
    case CancelRequest(c) => CancelChanges(s, c, config)
    case CommandAck(ack) => AckChanges(s, ack)
    case MissionTimeout(t) => TimeoutChanges(s, t)
    case RobotTelemetry(t) => TelemetryChanges(s, t)
    case FreshnessCheck(f) => FreshnessChanges(s, f, config)
    case ReconnectStarted(r) => ReconnectChanges(s, r)
    case ReconnectHandshake(h, now, correlationId) => HandshakeChanges(s, h, now)
    case EdgeConnected(robotId, hello, at) => ConnectChanges(s, robotId, hello, at)
  }

  /** `n` is `s` with these changes, and with one numbered record more in both logs or in neither. */
  ghost predicate Effect(s: DomainState, c: Changes, n: DomainState) {
    || n == Put(s, c)
    || (exists e, a :: n == AppendRecords(Put(s, c), CreateDomainEvent(s, e), CreateAuditEvent(s, a)))
  }

  lemma DispatchEffect(s: DomainState, d: DispatchInput, config: DomainConfig)
    ensures Effect(s, DispatchChanges(s, d, config), DispatchMissionCommand(s, d, config).state)
  {
    hide Judge, AcceptChanges, RejectedMission, RejectionEvent, RejectionAudit, DispatchedCommand;
    hide DispatchedMission, NextSequence, CreateDomainEvent, CreateAuditEvent;
  }

  lemma CancelEffect(s: DomainState, c: CancelInput, config: DomainConfig)
    ensures Effect(s, CancelChanges(s, c, config), RequestMissionCancellation(s, c, config).state)
  {
    hide JudgeCancel, AcceptCancelChanges, CancelCommand, CancellingMission, CancelSequence;
    hide CreateDomainEvent, CreateAuditEvent;
  }

  lemma AckEffect(s: DomainState, ack: Ack)
    ensures Effect(s, AckChanges(s, ack), ApplyCommandAck(s, ack).state)
  {
    hide JudgeAck, AckedChanges, AckedMission, CreateDomainEvent, CreateAuditEvent;
  }

  lemma TimeoutEffect(s: DomainState, t: TimeoutInput)
    ensures Effect(s, TimeoutChanges(s, t), ApplyMissionTimeout(s, t).state)
  {
    hide TimedOutMission, CreateDomainEvent, CreateAuditEvent;
  }

  lemma TelemetryEffect(s: DomainState, t: TelemetryReport)
    ensures Effect(s, TelemetryChanges(s, t), IngestRobotTelemetry(s, t).state)
  {
    hide ReportedRobot, ReportedMission, CreateDomainEvent, CreateAuditEvent;
  }

  lemma FreshnessEffect(s: DomainState, f: FreshnessInput, config: DomainConfig)
    ensures Effect(s, FreshnessChanges(s, f, config), EvaluateTelemetryFreshness(s, f, config).state)
  {
    hide FreshConnection, WithStatus, CurrentActive, CreateDomainEvent, CreateAuditEvent;
  }

  lemma ReconnectEffect(s: DomainState, r: ReconnectInput)
    ensures Effect(s, ReconnectChanges(s, r), BeginReconnect(s, r).state)
  {
    hide WithStatus, CurrentActive, CreateDomainEvent, CreateAuditEvent;
  }

  lemma HandshakeEffect(s: DomainState, h: HandshakeReport, now: Option<Time>, correlationId: Id)
    ensures Effect(s, HandshakeChanges(s, h, now), ProcessReconnectHandshake(s, h, now, correlationId).state)
  {
    hide DecideReconciliation, ReconciledMission, ReconciledRobot, CreateDomainEvent, CreateAuditEvent;
  }

  /** Every reducer does exactly its changes and one emission; nothing else in the state moves. */
  lemma StepEffect(s: DomainState, i: Input, config: DomainConfig)
    ensures Effect(s, StepChanges(s, i, config), Step(s, i, config))
  {
    hide Effect, DispatchChanges, CancelChanges, AckChanges, TimeoutChanges, TelemetryChanges, ReconnectChanges;
    hide FreshnessChanges, HandshakeChanges, DispatchMissionCommand, RequestMissionCancellation;
    hide ApplyCommandAck, ApplyMissionTimeout, IngestRobotTelemetry, EvaluateTelemetryFreshness;
    hide BeginReconnect, ProcessReconnectHandshake;
    match i
    case DispatchRequest(d) => DispatchEffect(s, d, config);
    case CancelRequest(c) => CancelEffect(s, c, config);
    case CommandAck(ack) => AckEffect(s, ack);
    case MissionTimeout(t) => TimeoutEffect(s, t);
    case RobotTelemetry(t) => TelemetryEffect(s, t);
    case FreshnessCheck(f) => FreshnessEffect(s, f, config);
    case ReconnectStarted(r) => ReconnectEffect(s, r);
    case ReconnectHandshake(h, now, correlationId) => HandshakeEffect(s, h, now, correlationId);
    case EdgeConnected(robotId, hello, at) => ConnectEffect(s, ConnectChanges(s, robotId, hello, at));
  }

  lemma ConnectEffect(s: DomainState, c: Changes)
    ensures Effect(s, c, Put(s, c))
  {
  }

  /** The part of a step's effect that invariants over the snapshots use. */
  lemma StepPuts(s: DomainState, i: Input, config: DomainConfig)
    ensures var p, n := Put(s, StepChanges(s, i, config)), Step(s, i, config);
            && n.missions == p.missions && n.robots == p.robots && n.commands == p.commands
            && n.idempotencyRecords == p.idempotencyRecords && n.nextSequence == p.nextSequence
            && n.processedAckIds == p.processedAckIds && n.processedEventIds == p.processedEventIds
            && n.processedSessionIds == p.processedSessionIds
  {
    StepEffect(s, i, config);
    hide Step, StepChanges, Put, CreateDomainEvent, CreateAuditEvent;
  }

  /******* Emitted records *******/

  /** Ids are positional: the n-th record of a log carries number n. */
  ghost predicate LogsNumbered(s: DomainState) {
    && (forall n | 0 <= n < |s.domainEvents| :: s.domainEvents[n].eventId == DomainEventId(n + 1))
    && (forall n | 0 <= n < |s.auditEvents| :: s.auditEvents[n].auditEventId == AuditEventId(n + 1))
  }

  /** Logs are append-only, a step adds at most one record to each, and numbering is kept. */
  lemma StepAppends(s: DomainState, i: Input, config: DomainConfig)
    ensures s.domainEvents <= Step(s, i, config).domainEvents
    ensures s.auditEvents <= Step(s, i, config).auditEvents
    ensures |Step(s, i, config).domainEvents| - |s.domainEvents| <= 1
    ensures |Step(s, i, config).domainEvents| - |s.domainEvents|
         == |Step(s, i, config).auditEvents| - |s.auditEvents|
    ensures LogsNumbered(s) ==> LogsNumbered(Step(s, i, config))
  {
    StepEffect(s, i, config);
    hide Step, StepChanges, DomainEventId, AuditEventId;
  }

  /******* Snapshots stay under their ids *******/

  lemma StepKeyed(s: DomainState, i: Input, config: DomainConfig)
    requires KeyedById(s)
    ensures KeyedById(Step(s, i, config))
    ensures s.missions.Keys <= Step(s, i, config).missions.Keys
    ensures s.robots.Keys <= Step(s, i, config).robots.Keys
    ensures s.commands.Keys <= Step(s, i, config).commands.Keys
  {
    StepPuts(s, i, config);
    hide Step, StepChanges;
  }

  lemma {:induction false} RunKeyed(inputs: seq<Input>, config: DomainConfig)
    ensures KeyedById(Run(INITIAL_STATE, inputs, config))
    decreases |inputs|
  {
    hide Step, KeyedById;
    if inputs == [] {
      InitiallyKeyed();
    } else {
      var front, last := inputs[..|inputs| - 1], inputs[|inputs| - 1];
      assert inputs == front + [last];
      RunKeyed(front, config);
      RunAppend(INITIAL_STATE, front, [last], config);
      RunOne(Run(INITIAL_STATE, front, config), last, config);
      hide Run;
      StepKeyed(Run(INITIAL_STATE, front, config), last, config);
    }
  }

  lemma InitiallyKeyed()
    ensures KeyedById(INITIAL_STATE)
  {
  }

  /******* The two ways a step writes commands and missions *******/

  /** A step issues a command only with a fresh id, its record, and the mission it belongs to. */
  lemma StepIssues(s: DomainState, i: Input, config: DomainConfig)
    requires KeyedById(s)
    ensures var ch := StepChanges(s, i, config);
            && (ch.record.Some? <==> ch.command.Some?)
            && (ch.command.Some? ==>
                  var c, r, m := ch.command.value, ch.record.value, ch.mission;
                  && c.commandId !in s.commands
                  && r.idempotencyKey == c.idempotencyKey && r.commandId == c.commandId && r.missionId == c.missionId
                  && (c.idempotencyKey in s.idempotencyRecords ==>
                        !Settles(s, s.idempotencyRecords[c.idempotencyKey]))
                  && m.Some? && m.value.missionId == c.missionId && m.value.robotId == c.robotId
                  && m.value.lastCommandSequence == Some(c.sequence)
                  && (c.robotId in s.nextSequence ==> c.sequence == s.nextSequence[c.robotId])
                  && (i.DispatchRequest? || i.CancelRequest?))
  {
    hide TargetPose, PayloadIssues, DispatchSignature, CancelSignature, ReasonPayload, AssignedRobot;
  }

  /** Otherwise a mission is rewritten in place, or a rejected dispatch stores one that is not active. */
  ghost predicate RewrittenOrRefused(s: DomainState, i: Input, m: Mission) {
    || (m.missionId in s.missions
        && m.robotId == s.missions[m.missionId].robotId
        && m.lastCommandSequence == s.missions[m.missionId].lastCommandSequence
        && m.currentCommandId == s.missions[m.missionId].currentCommandId)
    || (i.DispatchRequest? && m.missionId == i.d.missionId && m.robotId == i.d.robotId
        && m.lastCommandSequence == None && !IsActive(m.lifecycle))
  }

  lemma StepMissions(s: DomainState, i: Input, config: DomainConfig)
    requires KeyedById(s)
    ensures var ch := StepChanges(s, i, config);
            ch.mission.Some? && ch.command.None? ==> RewrittenOrRefused(s, i, ch.mission.value)
  {
    hide TargetPose, Judge, DispatchSignature, CancelSignature, JudgeCancel, DecideReconciliation, AckedRobot;
    hide ReportedRobot, ReconciledRobot, FreshConnection;
  }

  /** Stored commands are never changed or removed. */
  lemma StepKeepsCommands(s: DomainState, i: Input, config: DomainConfig)
    requires KeyedById(s)
    ensures forall id | id in s.commands ::
              id in Step(s, i, config).commands && Step(s, i, config).commands[id] == s.commands[id]
  {
    hide Step, StepChanges;
    StepPuts(s, i, config);
    StepIssues(s, i, config);
  }
}
