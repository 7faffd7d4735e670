/** The snapshots after every input: one table for each part of a mission, of a robot and of the bookkeeping. */
module Progress {
  import opened Texts
  import opened FleetState
  import opened Dispatch
  import opened Cancel
  import opened Acknowledge
  import opened Telemetry
  import opened Reconnect
  import opened Decisions
  import opened FleetRun
  import opened Lifecycles

  /******* What an input is about *******/

  /** A dispatch that is accepted or refused writes its mission anew. */
  predicate Rewrites(s: DomainState, i: Input, m: Id) {
    i.DispatchRequest? && i.d.missionId == m && FreshKey(s, i.d.idempotencyKey, DispatchSignature(i.d))
  }

  /** The mission that is active and that the robot points at. */
  predicate Occupies(s: DomainState, r: Id, m: Id) {
    r in s.robots && s.robots[r].activeMissionId == Some(m) && ActiveIn(s, m)
  }

  /** The platform's clock, or the message's when it carries one. */
  function ClockOf(i: Input): Time {
    match i
    case DispatchRequest(d) => d.now
    case CancelRequest(c) => c.now
    case CommandAck(ack) => ack.receivedAt
    case MissionTimeout(t) => t.now
    case RobotTelemetry(t) => t.receivedAt
    case FreshnessCheck(f) => f.now
    case ReconnectStarted(r) => r.now
    case ReconnectHandshake(h, now, _) => if now.Some? then now.value else h.connectedAt
    case EdgeConnected(_, _, at) => at
  }

  /** The freshness check finds another connection state than the stored one. */
  predicate Refreshes(s: DomainState, f: FreshnessInput, config: DomainConfig) {
    f.robotId in s.robots && s.robots[f.robotId].connectionState != Deserved(s.robots[f.robotId], f.now, config)
  }

  /** The input writes mission `m`. */
  predicate WritesMission(s: DomainState, i: Input, m: Id, config: DomainConfig) {
    match i
    case DispatchRequest(d) => Rewrites(s, i, m)
    case CancelRequest(c) => c.missionId == m && Cancellable(s, c, config)
    case CommandAck(ack) => Counts(s, ack) && s.commands[ack.commandId].missionId == m
    case MissionTimeout(t) => t.missionId == m && TimesOut(s, t)
    case RobotTelemetry(t) => t.eventId !in s.processedEventIds && t.currentMissionId == Some(m) && ActiveIn(s, m)
    case FreshnessCheck(f) => Refreshes(s, f, config) && Occupies(s, f.robotId, m)
    case ReconnectStarted(r) => Occupies(s, r.robotId, m)
    case ReconnectHandshake(h, _, _) => h.edgeSessionId !in s.processedSessionIds && Concerned(s, h) == Some(m)
    case EdgeConnected(_, _, _) => false
  }

  /******* Missions *******/

  /** What the mission is for. */
  datatype Purpose = Purpose(robotId: Id, target: Option<Pose2D>, createdAt: Time, key: Option<Id>)

  /** The last command issued for it. */
  datatype Work = Work(command: Option<Id>, sequence: Option<int>)

  /** What is known to have been acknowledged. */
  datatype Progressed = Progressed(command: Option<Id>, sequence: Option<nat>)

  function PurposeOf(m: Mission): Purpose { Purpose(m.robotId, m.targetPose, m.createdAt, m.idempotencyKey) }
  function WorkOf(m: Mission): Work { Work(m.currentCommandId, m.lastCommandSequence) }

  function ProgressOf(m: Mission): Progressed {
    Progressed(m.lastAcknowledgedCommandId, m.lastAcknowledgedCommandSequence)
  }

  /** Only a dispatch says what a mission is for. */
  function PurposeAfter(s: DomainState, i: Input, m: Id): Purpose
    requires Rewrites(s, i, m) || m in s.missions
  {
    if Rewrites(s, i, m) then
      Purpose(i.d.robotId, TargetPose(i.d.commandType, i.d.payload), i.d.now, Some(i.d.idempotencyKey))
    else PurposeOf(s.missions[m])
  }

  /** The number a new command of the robot gets: where there is no counter, one above all that is known of it. */
  function NumberFor(s: DomainState, r: Id, known: int): int {
    if r in s.nextSequence then s.nextSequence[r] else known + 1
  }

  /** The best sequence known of the mission's robot without a counter. */
  function KnownSequence(s: DomainState, m: Id): int
    requires m in s.missions
  {
    var r := s.missions[m].robotId;
    match s.missions[m].lastCommandSequence
    case Some(n) => n
    case None => if r in s.robots then s.robots[r].lastSeenCommandSequence else 0
  }

  /** Only accepted requests issue commands; a refused dispatch leaves a mission without any. */
  function WorkAfter(s: DomainState, i: Input, m: Id, config: DomainConfig): Work
    requires Rewrites(s, i, m) || m in s.missions
  {
    if Rewrites(s, i, m) then
      if Acceptable(s, i.d, config) then Work(Some(i.d.commandId), Some(NumberFor(s, i.d.robotId, 0)))
      else Work(None, None)
    else if i.CancelRequest? && i.c.missionId == m && Cancellable(s, i.c, config) then
      Work(Some(i.c.commandId), Some(NumberFor(s, s.missions[m].robotId, KnownSequence(s, m))))
    else WorkOf(s.missions[m])
  }

  /** An acknowledgement that counts and, while the mission is active, telemetry report progress. */
  function ProgressAfter(s: DomainState, i: Input, m: Id, config: DomainConfig): Progressed
    requires Rewrites(s, i, m) || m in s.missions
  {
    if Rewrites(s, i, m) then Progressed(None, None)
    else if !WritesMission(s, i, m, config) then ProgressOf(s.missions[m])
    else
      match i
      case CommandAck(ack) => Progressed(Some(ack.commandId), Some(ack.lastSeenCommandSequence))
      case RobotTelemetry(t) =>
        Progressed(if t.lastAcknowledgedCommandId.Some? then t.lastAcknowledgedCommandId
                   else s.missions[m].lastAcknowledgedCommandId,
                   Some(t.lastSeenCommandSequence))
      case _ => ProgressOf(s.missions[m])
  }

  /** How well the mission goes, apart from its lifecycle; a cancellation does not touch it. */
  function StatusAfter(s: DomainState, i: Input, m: Id, config: DomainConfig): OperationalStatus
    requires Rewrites(s, i, m) || m in s.missions
  {
    if !WritesMission(s, i, m, config) then s.missions[m].operationalStatus
    else
      match i
      case DispatchRequest(d) => if Acceptable(s, d, config) then NOMINAL else DEGRADED_STATUS
      case CommandAck(ack) => if ack.status == Accepted then NOMINAL else DEGRADED_STATUS
      case MissionTimeout(_) => DEGRADED_STATUS
      case RobotTelemetry(t) => if t.connectionState == ONLINE && t.health == OK then NOMINAL else DEGRADED_STATUS
      case FreshnessCheck(f) =>
        if f.robotId in s.robots && Deserved(s.robots[f.robotId], f.now, config) == ONLINE then NOMINAL
        else DEGRADED_STATUS
      case ReconnectStarted(_) => RECONNECTING_STATUS
      case ReconnectHandshake(h, _, _) => if Objection(s, h).Some? then RECONCILING else RECOVERED
      case _ => if m in s.missions then s.missions[m].operationalStatus else NOMINAL
  }

  /** Why it stopped. What an earlier failure left behind stays until something else fails, or a new dispatch. */
  function FailureAfter(s: DomainState, i: Input, m: Id, config: DomainConfig): Option<FailureReason>
    requires Rewrites(s, i, m) || m in s.missions
  {
    var before := if m in s.missions then s.missions[m].failureReason else None;
    if !WritesMission(s, i, m, config) then before
    else
      match i
      case DispatchRequest(d) =>
        if Acceptable(s, d, config) then None
        else
          (match FirstClosedGate(s, d, config)
           case Some(gate) => Some(Refused(gate))
           case None => None)
      case CommandAck(ack) => if ack.reason.Some? then Some(ReportedByEdge(ack.reason.value)) else before
      case MissionTimeout(_) => Some(CommandExpiredUnacknowledged)
      case ReconnectHandshake(h, _, _) =>
        if Objection(s, h).Some? then Some(DecidedOnReconnect(Objection(s, h).value))
        else if h.reportedLifecycle == Some(FAILED) then Some(DecidedOnReconnect(ReportedFailed))
        else before
      case _ => before
  }

  function FirstClosedGate(s: DomainState, d: DispatchInput, config: DomainConfig): Option<DispatchRejection> {
    FirstClosedFrom(s, d, config, 0)
  }

  function FirstClosedFrom(s: DomainState, d: DispatchInput, config: DomainConfig, k: nat): Option<DispatchRejection>
    requires k <= |DISPATCH_GATES|
    decreases |DISPATCH_GATES| - k
  {
    if k == |DISPATCH_GATES| then None
    else if GateClosed(s, d, config, DISPATCH_GATES[k]) then Some(DISPATCH_GATES[k])
    else FirstClosedFrom(s, d, config, k + 1)
  }

  /** Mission `m` after an input, put together from the tables. */
  function MissionAfter(s: DomainState, i: Input, m: Id, config: DomainConfig): Option<Mission> {
    if !Rewrites(s, i, m) && m !in s.missions then None
    else
      var lifecycle := LifecycleAfter(s, i, m, config);
      if lifecycle.None? then None
      else
        var purpose, work := PurposeAfter(s, i, m), WorkAfter(s, i, m, config);
        var progress := ProgressAfter(s, i, m, config);
        Some(Mission(
          m, purpose.robotId, lifecycle.value, StatusAfter(s, i, m, config), purpose.target, purpose.createdAt,
          if WritesMission(s, i, m, config) then ClockOf(i) else s.missions[m].updatedAt,
          work.command, work.sequence, progress.command, progress.sequence, purpose.key,
          FailureAfter(s, i, m, config)))
  }

  function Stored(s: DomainState, m: Id): Option<Mission> {
    if m in s.missions then Some(s.missions[m]) else None
  }

  /** What a step that writes `written`, if anything, leaves of mission `m`. */
  function Overwritten(s: DomainState, written: Option<Mission>, m: Id): Option<Mission> {
    if written.Some? && written.value.missionId == m then written else Stored(s, m)
  }

  lemma FirstClosedFound(s: DomainState, d: DispatchInput, config: DomainConfig, k: nat, j: nat)
    requires k <= j < |DISPATCH_GATES| && FirstClosed(s, d, config, j)
    ensures FirstClosedFrom(s, d, config, k) == Some(DISPATCH_GATES[j])
    decreases j - k
  {
    hide GateClosed;
    if k < j {
      FirstClosedFound(s, d, config, k + 1, j);
    }
  }

  lemma RefusedFor(s: DomainState, d: DispatchInput, config: DomainConfig)
    requires Judge(s, d, config).Refuse?
    ensures FirstClosedGate(s, d, config) == Some(Judge(s, d, config).refusal.reason)
  {
    JudgeExactly(s, d, config);
    RefusalNamesGate(s, d, config);
    hide Judge, DispatchRefusal, Refusable, Acceptable, Contradicted, Answered, Proper;
    var refusal := Judge(s, d, config).refusal;
    var k :| 0 <= k < |DISPATCH_GATES| && DISPATCH_GATES[k] == refusal.reason;
    assert DispatchRefusal(s, d, config) == Some(refusal);
    RefusalExactly(s, d, config, k);
    assert FirstClosed(s, d, config, k);
    hide GateClosed, FirstClosed, FirstClosedFrom;
    FirstClosedFound(s, d, config, 0, k);
  }

  lemma DispatchedMissions(s: DomainState, d: DispatchInput, m: Id, config: DomainConfig)
    requires KeyedById(s)
    ensures MissionAfter(s, DispatchRequest(d), m, config) == Overwritten(s, DispatchChanges(s, d, config).mission, m)
  {
    JudgeExactly(s, d, config);
    StoredMissionId(s, m);
    if Judge(s, d, config).Refuse? {
      RefusedFor(s, d, config);
    }
    hide Judge, DispatchSignature, TargetPose, Contradicted, Answered, Proper, Sendable, FirstClosedGate, AssignedRobot;
    hide KeyedById;
  }

  lemma CancelledMissions(s: DomainState, c: CancelInput, m: Id, config: DomainConfig)
    requires KeyedById(s)
    ensures MissionAfter(s, CancelRequest(c), m, config) == Overwritten(s, CancelChanges(s, c, config).mission, m)
  {
    JudgeCancelExactly(s, c, config);
    StoredMissionId(s, c.missionId);
    hide JudgeCancel, CancelSignature, ReasonPayload, FreshKey, KeyedById;
  }

  lemma AckedMissions(s: DomainState, ack: Ack, m: Id, config: DomainConfig)
    requires KeyedById(s)
    ensures MissionAfter(s, CommandAck(ack), m, config) == Overwritten(s, AckChanges(s, ack).mission, m)
  {
    JudgeAckExactly(s, ack);
    hide JudgeAck, AckedRobot, Stale;
  }

  lemma TimedOutMissions(s: DomainState, t: TimeoutInput, m: Id, config: DomainConfig)
    requires KeyedById(s)
    ensures MissionAfter(s, MissionTimeout(t), m, config) == Overwritten(s, TimeoutChanges(s, t).mission, m)
  {
    StoredMissionId(s, t.missionId);
    hide KeyedById;
  }

  lemma ReportedMissions(s: DomainState, t: TelemetryReport, m: Id, config: DomainConfig)
    requires KeyedById(s)
    ensures MissionAfter(s, RobotTelemetry(t), m, config) == Overwritten(s, TelemetryChanges(s, t).mission, m)
  {
    StoredMissionId(s, t.currentMissionId.Or(m));
    hide ReportedRobot, KeyedById;
  }

  /** The mission that freshness checks and reconnects touch. */
  lemma CurrentOccupies(s: DomainState, r: Id, m: Id)
    requires KeyedById(s) && r in s.robots
    ensures var current := CurrentActive(s, s.robots[r]);
            && (current.Some? && current.value.missionId == m <==> Occupies(s, r, m))
            && (Occupies(s, r, m) ==> current == Stored(s, m))
  {
    hide IsActive;
  }

  lemma RefreshedMissions(s: DomainState, f: FreshnessInput, m: Id, config: DomainConfig)
    requires KeyedById(s)
    ensures MissionAfter(s, FreshnessCheck(f), m, config) == Overwritten(s, FreshnessChanges(s, f, config).mission, m)
  {
    FreshnessExactly(s, f, config);
    if f.robotId in s.robots {
      CurrentOccupies(s, f.robotId, m);
    }
    hide CurrentActive, FreshConnection, Deserved, KeyedById;
  }

  lemma ReconnectingMissions(s: DomainState, r: ReconnectInput, m: Id, config: DomainConfig)
    requires KeyedById(s)
    ensures MissionAfter(s, ReconnectStarted(r), m, config) == Overwritten(s, ReconnectChanges(s, r).mission, m)
  {
    if r.robotId in s.robots {
      CurrentOccupies(s, r.robotId, m);
    }
    hide CurrentActive, KeyedById;
  }

  /** The decision carried out on mission `m`. */
  lemma ReconciledIs(s: DomainState, h: HandshakeReport, at: Time, m: Id)
    requires KeyedById(s)
    ensures var mission := ReconciledMission(s, h, at);
            && (mission.Some? && mission.value.missionId == m <==> Concerned(s, h) == Some(m))
            && (Concerned(s, h) == Some(m) ==>
                  m in s.missions
                  && mission == Some(ApplyReconciliation(s.missions[m], DecideReconciliation(s, h), at)))
  {
    assert !ReportsKnown(s, h) ==> DecideReconciliation(s, h).outcome.ManualReview?;
    hide DecideReconciliation;
  }

  lemma ReconciledMissions(s: DomainState, h: HandshakeReport, now: Option<Time>, correlationId: Id, m: Id,
                           config: DomainConfig)
    requires KeyedById(s)
    ensures MissionAfter(s, ReconnectHandshake(h, now, correlationId), m, config)
         == Overwritten(s, HandshakeChanges(s, h, now).mission, m)
  {
    HandshakeExactly(s, h);
    ReconciledIs(s, h, now.Or(h.connectedAt), m);
    StoredMissionId(s, m);
    hide DecideReconciliation, ReconciledMission, ReconciledRobot, Objection, Concerned, KeyedById;
  }

  /** Every mission, known or not, is after every input exactly what the tables say, in all its parts. */
  lemma MissionExact(s: DomainState, i: Input, m: Id, config: DomainConfig)
    requires KeyedById(s)
    ensures Stored(Step(s, i, config), m) == MissionAfter(s, i, m, config)
  {
    StepPuts(s, i, config);
    assert Stored(Step(s, i, config), m) == Overwritten(s, StepChanges(s, i, config).mission, m) by {
      hide Step, StepChanges;
    }
    hide Step, Overwritten, KeyedById, MissionAfter, Stored, DispatchChanges, CancelChanges, AckChanges, TimeoutChanges;
    hide TelemetryChanges, FreshnessChanges, ReconnectChanges, HandshakeChanges;
    match i
    case DispatchRequest(d) => DispatchedMissions(s, d, m, config);
    case CancelRequest(c) => CancelledMissions(s, c, m, config);
    case CommandAck(ack) => AckedMissions(s, ack, m, config);
    case MissionTimeout(t) => TimedOutMissions(s, t, m, config);
    case RobotTelemetry(t) => ReportedMissions(s, t, m, config);
    case FreshnessCheck(f) => RefreshedMissions(s, f, m, config);
    case ReconnectStarted(r) => ReconnectingMissions(s, r, m, config);
    case ReconnectHandshake(h, now, correlationId) => ReconciledMissions(s, h, now, correlationId, m, config);
    case EdgeConnected(robotId, hello, at) => ConnectedMissions(s, robotId, hello, at, m, config);
  }

  lemma ConnectedMissions(s: DomainState, robotId: Id, hello: Option<Hello>, at: Time, m: Id, config: DomainConfig)
    requires KeyedById(s)
    ensures MissionAfter(s, EdgeConnected(robotId, hello, at), m, config)
         == Overwritten(s, ConnectChanges(s, robotId, hello, at).mission, m)
  {
    StoredMissionId(s, m);
    hide ConnectedRobot, KeyedById;
  }

  /******* Robots *******/

  /** What the robot's own messages have told of it. */
  datatype Sighting = Sighting(
    pose: Option<Pose2D>, health: Option<Health>, battery: Option<real>, observedAt: Option<Time>,
    receivedAt: Option<Time>, version: Option<Id>)

  const UNSEEN := Sighting(None, None, None, None, None, None)

  function SightingOf(r: Robot): Sighting {
    Sighting(r.pose, r.health, r.batteryPercent, r.lastTelemetryObservedAt, r.lastTelemetryReceivedAt,
             r.edgeAgentVersion)
  }

  /** The input writes robot `r`. */
  predicate WritesRobot(s: DomainState, i: Input, r: Id, config: DomainConfig) {
    match i
    case DispatchRequest(d) => d.robotId == r && Acceptable(s, d, config)
    case CommandAck(ack) => Counts(s, ack) && s.commands[ack.commandId].robotId == r
    case RobotTelemetry(t) => t.robotId == r && t.eventId !in s.processedEventIds
    case FreshnessCheck(f) => f.robotId == r && Refreshes(s, f, config)
    case ReconnectStarted(c) => c.robotId == r && r in s.robots
    case ReconnectHandshake(h, _, _) => h.robotId == r && h.edgeSessionId !in s.processedSessionIds
    case EdgeConnected(robotId, _, _) => robotId == r
    case _ => false
  }

  /** Telemetry tells everything, a handshake and a hello some; a robot first met by its hello counts as well. */
  function SightingAfter(s: DomainState, i: Input, r: Id, config: DomainConfig): Sighting {
    var before := if r in s.robots then SightingOf(s.robots[r]) else UNSEEN;
    if !WritesRobot(s, i, r, config) then before
    else
      match i
      case RobotTelemetry(t) =>
        Sighting(Some(t.pose), Some(t.health), Some(t.batteryPercent), Some(t.observedAt), Some(t.receivedAt),
                 Some(t.edgeAgentVersion))
      case ReconnectHandshake(h, _, _) =>
        Sighting(before.pose, before.health, before.battery, Some(h.lastTelemetryObservedAt), before.receivedAt,
                 Some(h.edgeAgentVersion))
      case EdgeConnected(_, hello, at) =>
        var told := if hello.Some? then hello.value.edgeAgentVersion else None;
        if r in s.robots then
          Sighting(before.pose, before.health, before.battery, before.observedAt, before.receivedAt,
                   if told.Some? then told else before.version)
        else
          Sighting(None, Some(OK), Some(80.0), Some(at), Some(at), if told.Some? then told else Some(Ascii("0.1.0")))
      case _ => before
  }

  /** The command the robot is known to have acknowledged last. */
  function AcknowledgedAfter(s: DomainState, i: Input, r: Id, config: DomainConfig): Option<Id> {
    var before := if r in s.robots then s.robots[r].lastAcknowledgedCommandId else None;
    if !WritesRobot(s, i, r, config) then before
    else
      match i
      case CommandAck(ack) => Some(ack.commandId)
      case RobotTelemetry(t) => if t.lastAcknowledgedCommandId.Some? then t.lastAcknowledgedCommandId else before
      case ReconnectHandshake(h, _, _) =>
        if h.lastAcknowledgedCommandId.Some? then h.lastAcknowledgedCommandId else before
      case _ => before
  }

  /** Robot `r` after an input, put together from the tables. */
  function RobotAfter(s: DomainState, i: Input, r: Id, config: DomainConfig): Option<Robot> {
    var view, sighting := ViewAfter(s, i, r, config), SightingAfter(s, i, r, config);
    if view.None? || (!WritesRobot(s, i, r, config) && r !in s.robots) then None
    else
      Some(Robot(
        r, view.value.connection, if WritesRobot(s, i, r, config) then ClockOf(i) else s.robots[r].updatedAt,
        sighting.pose, sighting.health, sighting.battery, view.value.mission, sighting.observedAt, sighting.receivedAt,
        AcknowledgedAfter(s, i, r, config), view.value.seen, sighting.version))
  }

  function StoredRobot(s: DomainState, r: Id): Option<Robot> {
    if r in s.robots then Some(s.robots[r]) else None
  }

  function OverwrittenRobot(s: DomainState, written: Option<Robot>, r: Id): Option<Robot> {
    if written.Some? && written.value.robotId == r then written else StoredRobot(s, r)
  }

  /** The part of the robot that `ViewExact` does not speak of. */
  predicate RestExact(s: DomainState, i: Input, r: Id, written: Option<Robot>, config: DomainConfig) {
    var robot := OverwrittenRobot(s, written, r);
    && (robot.Some? <==> WritesRobot(s, i, r, config) || r in s.robots)
    && (robot.Some? ==>
          && robot.value.robotId == r && SightingOf(robot.value) == SightingAfter(s, i, r, config)
          && robot.value.lastAcknowledgedCommandId == AcknowledgedAfter(s, i, r, config)
          && robot.value.updatedAt == if WritesRobot(s, i, r, config) then ClockOf(i) else s.robots[r].updatedAt)
  }

  lemma AssignedRobots(s: DomainState, i: Input, r: Id, config: DomainConfig)
    requires KeyedById(s) && (i.DispatchRequest? || i.CancelRequest? || i.MissionTimeout?)
    ensures RestExact(s, i, r, StepChanges(s, i, config).robot, config)
  {
    hide Judge, JudgeCancel, DispatchSignature, CancelSignature, TargetPose, Acceptable, ReasonPayload, KeyedById;
    StoredRobotId(s, r);
    if i.DispatchRequest? {
      JudgeExactly(s, i.d, config);
      StoredRobotId(s, i.d.robotId);
    }
  }

  lemma AckedRobots(s: DomainState, ack: Ack, r: Id, config: DomainConfig)
    requires KeyedById(s)
    ensures RestExact(s, CommandAck(ack), r, AckChanges(s, ack).robot, config)
  {
    JudgeAckExactly(s, ack);
    StoredRobotId(s, r);
    hide JudgeAck, Stale, IsActive, LifecycleFromAck, KeyedById;
  }

  lemma ReportedRobots(s: DomainState, t: TelemetryReport, r: Id, config: DomainConfig)
    requires KeyedById(s)
    ensures RestExact(s, RobotTelemetry(t), r, TelemetryChanges(s, t).robot, config)
  {
    StoredRobotId(s, r);
    hide IsActive, KeyedById;
  }

  lemma MovedRobots(s: DomainState, i: Input, r: Id, config: DomainConfig)
    requires KeyedById(s) && (i.FreshnessCheck? || i.ReconnectStarted?)
    ensures RestExact(s, i, r, StepChanges(s, i, config).robot, config)
  {
    StoredRobotId(s, r);
    if i.FreshnessCheck? {
      FreshnessExactly(s, i.freshness, config);
    }
    hide FreshConnection, Deserved, CurrentActive, KeyedById;
  }

  lemma ReconciledRobots(s: DomainState, h: HandshakeReport, now: Option<Time>, correlationId: Id, r: Id,
                         config: DomainConfig)
    requires KeyedById(s)
    ensures RestExact(s, ReconnectHandshake(h, now, correlationId), r, HandshakeChanges(s, h, now).robot, config)
  {
    StoredRobotId(s, r);
    hide DecideReconciliation, ReconciledMission, IsActive, KeyedById;
  }

  lemma ConnectedRobots(s: DomainState, robotId: Id, hello: Option<Hello>, at: Time, r: Id, config: DomainConfig)
    requires KeyedById(s)
    ensures RestExact(s, EdgeConnected(robotId, hello, at), r, ConnectChanges(s, robotId, hello, at).robot, config)
  {
    StoredRobotId(s, r);
    hide KeyedById;
  }

  /** Every robot, known or not, is after every input exactly what the tables say, in all its parts. */
  lemma RobotExact(s: DomainState, i: Input, r: Id, config: DomainConfig)
    requires KeyedById(s)
    ensures StoredRobot(Step(s, i, config), r) == RobotAfter(s, i, r, config)
  {
    StepPuts(s, i, config);
    assert StoredRobot(Step(s, i, config), r) == OverwrittenRobot(s, StepChanges(s, i, config).robot, r) by {
      hide Step, StepChanges;
    }
    ViewExact(s, i, r, config);
    RestIs(s, i, r, config);
    hide Step, StepChanges, KeyedById, ViewAfter, WritesRobot, SightingAfter, AcknowledgedAfter, ClockOf;
  }

  lemma RestIs(s: DomainState, i: Input, r: Id, config: DomainConfig)
    requires KeyedById(s)
    ensures RestExact(s, i, r, StepChanges(s, i, config).robot, config)
  {
    hide RestExact, KeyedById, DispatchChanges, CancelChanges, AckChanges, TimeoutChanges;
    hide TelemetryChanges, FreshnessChanges, ReconnectChanges, HandshakeChanges, ConnectChanges;
    match i
    case CommandAck(ack) => AckedRobots(s, ack, r, config);
    case RobotTelemetry(t) => ReportedRobots(s, t, r, config);
    case FreshnessCheck(_) => MovedRobots(s, i, r, config);
    case ReconnectStarted(_) => MovedRobots(s, i, r, config);
    case ReconnectHandshake(h, now, correlationId) => ReconciledRobots(s, h, now, correlationId, r, config);
    case EdgeConnected(robotId, hello, at) => ConnectedRobots(s, robotId, hello, at, r, config);
    case _ => AssignedRobots(s, i, r, config);
  }

  /******* Commands, keys, counters and seen ids *******/

  /** The command an accepted request issues. */
  function Issues(s: DomainState, i: Input, config: DomainConfig): Option<Command> {
    match i
    case DispatchRequest(d) =>
      if !Acceptable(s, d, config) then None
      else
        Some(Command(
          d.commandId, d.missionId, d.robotId, d.commandType, d.idempotencyKey, NumberFor(s, d.robotId, 0),
          d.issuedAt, d.expiresAt, d.requiresAck != Some(false),
          if d.safetyClass.Some? then d.safetyClass.value else Normal, d.correlationId, d.causationId, d.payload))
    case CancelRequest(c) =>
      if !Cancellable(s, c, config) then None
      else
        var robotId := s.missions[c.missionId].robotId;
        Some(Command(
          c.commandId, c.missionId, robotId, CancelMission, c.idempotencyKey,
          NumberFor(s, robotId, KnownSequence(s, c.missionId)), c.issuedAt, c.expiresAt, true, Normal,
          c.correlationId, c.causationId, ReasonPayload(c)))
    case _ => None
  }

  function SignatureOf(i: Input): Text {
    match i
    case DispatchRequest(d) => DispatchSignature(d)
    case CancelRequest(c) => CancelSignature(c)
    case _ => []
  }

  /** The id a message is known by once it has been dealt with, for the list it goes to. */
  function WithId(seen: seq<Id>, id: Id): seq<Id> {
    if id in seen then seen else seen + [id]
  }

  lemma IssuedIs(s: DomainState, i: Input, config: DomainConfig)
    requires KeyedById(s)
    ensures var ch := StepChanges(s, i, config);
            && ch.command == Issues(s, i, config)
            && ch.record
               == (match ch.command
                   case None => None
                   case Some(c) =>
                     Some(IdempotencyRecord(c.idempotencyKey, SignatureOf(i), c.commandId, c.missionId)))
  {
    hide DispatchSignature, CancelSignature, Judge, JudgeCancel, Acceptable, FreshKey, ReasonPayload, TargetPose;
    hide AssignedRobot, KeyedById, AckChanges, TelemetryChanges, HandshakeChanges, TimeoutChanges;
    match i
    case DispatchRequest(d) => JudgeExactly(s, d, config);
    case CancelRequest(c) =>
      JudgeCancelExactly(s, c, config);
      StoredMissionId(s, c.missionId);
      assert Cancellable(s, c, config) ==> c.missionId in s.missions;
    case _ => NoneIssued(s, i, config);
  }

  lemma NoneIssued(s: DomainState, i: Input, config: DomainConfig)
    requires !i.DispatchRequest? && !i.CancelRequest?
    ensures StepChanges(s, i, config).command == None && StepChanges(s, i, config).record == None
  {
    hide JudgeAck, DecideReconciliation, FreshConnection;
  }

  lemma NotedIs(s: DomainState, i: Input, config: DomainConfig)
    ensures var ch := StepChanges(s, i, config);
            && Noted(s.processedAckIds, ch.ackId)
               == (if i.CommandAck? then WithId(s.processedAckIds, i.ack.ackId) else s.processedAckIds)
            && Noted(s.processedEventIds, ch.eventId)
               == (if i.RobotTelemetry? then WithId(s.processedEventIds, i.telemetry.eventId) else s.processedEventIds)
            && Noted(s.processedSessionIds, ch.sessionId)
               == if i.ReconnectHandshake? then WithId(s.processedSessionIds, i.handshake.edgeSessionId)
                  else s.processedSessionIds
  {
    hide Judge, JudgeCancel, AckedRobot, AckedMission, ReportedRobot, ReportedMission, ReconciledRobot;
    hide ReconciledMission, DecideReconciliation, DispatchSignature, CancelSignature, FreshConnection;
  }

  /**
   The bookkeeping after every input: an accepted request adds its command, its key and one to its robot's counter,
   a message that carries an id is noted under it, and nothing else changes.
   */
  lemma BooksExact(s: DomainState, i: Input, config: DomainConfig)
    requires KeyedById(s)
    ensures var n, issued := Step(s, i, config), Issues(s, i, config);
            && n.commands == (if issued.Some? then s.commands[issued.value.commandId := issued.value] else s.commands)
            && n.idempotencyRecords
               == (if issued.None? then s.idempotencyRecords
                   else
                     var c := issued.value;
                     s.idempotencyRecords[
                       c.idempotencyKey :=
                         IdempotencyRecord(c.idempotencyKey, SignatureOf(i), c.commandId, c.missionId)])
            && n.nextSequence
               == (if issued.None? then s.nextSequence
                   else s.nextSequence[issued.value.robotId := issued.value.sequence + 1])
            && n.processedAckIds
               == (if i.CommandAck? then WithId(s.processedAckIds, i.ack.ackId) else s.processedAckIds)
            && n.processedEventIds
               == (if i.RobotTelemetry? then WithId(s.processedEventIds, i.telemetry.eventId) else s.processedEventIds)
            && n.processedSessionIds
               == if i.ReconnectHandshake? then WithId(s.processedSessionIds, i.handshake.edgeSessionId)
                  else s.processedSessionIds
  {
    StepPuts(s, i, config);
    IssuedIs(s, i, config);
    NotedIs(s, i, config);
    hide Step, StepChanges, Issues, SignatureOf, WithId, KeyedById;
  }

  /******* What the callers are told *******/

  /** The answers to requests carry the command and the mission as they are stored now. */
  lemma RequestsAnswered(s: DomainState, d: DispatchInput, c: CancelInput, config: DomainConfig)
    requires KeyedById(s)
    ensures var t := DispatchMissionCommand(s, d, config);
            match t.result
            case DispatchAccepted(command, mission) =>
              && d.commandId in t.state.commands && command == t.state.commands[d.commandId]
              && Stored(t.state, d.missionId) == Some(mission)
            case DispatchReplay(_, _) => t.state == s
            case DispatchRejected(reason, rejected, _) =>
              if reason == IDEMPOTENCY_KEY_REUSE_CONFLICT then rejected == None && t.state.missions == s.missions
              else rejected.Some? && rejected == Stored(t.state, d.missionId)
    ensures var t := RequestMissionCancellation(s, c, config);
            match t.result
            case CancelAccepted(command, mission) =>
              && c.commandId in t.state.commands && command == t.state.commands[c.commandId]
              && Stored(t.state, c.missionId) == Some(mission)
            case CancelReplay(_, _) => t.state == s
            case CancelRejected(_, mission) => t.state.missions == s.missions && mission == Stored(s, c.missionId)
  {
    DispatchAnswered(s, d, config);
    CancelAnswered(s, c, config);
    hide DispatchMissionCommand, RequestMissionCancellation;
  }

  lemma DispatchAnswered(s: DomainState, d: DispatchInput, config: DomainConfig)
    ensures var t := DispatchMissionCommand(s, d, config);
            match t.result
            case DispatchAccepted(command, mission) =>
              && d.commandId in t.state.commands && command == t.state.commands[d.commandId]
              && Stored(t.state, d.missionId) == Some(mission)
            case DispatchReplay(_, _) => t.state == s
            case DispatchRejected(reason, rejected, _) =>
              if reason == IDEMPOTENCY_KEY_REUSE_CONFLICT then rejected == None && t.state.missions == s.missions
              else rejected.Some? && rejected == Stored(t.state, d.missionId)
  {
    JudgeExactly(s, d, config);
    RefusalNamesGate(s, d, config);
    hide Judge, DispatchSignature, TargetPose, DispatchRefusal, Contradicted, Answered, Acceptable, Refusable;
    hide RejectionEvent, RejectionAudit, AssignedRobot, CreateDomainEvent, CreateAuditEvent, NextSequence;
  }

  lemma CancelAnswered(s: DomainState, c: CancelInput, config: DomainConfig)
    requires KeyedById(s)
    ensures var t := RequestMissionCancellation(s, c, config);
            match t.result
            case CancelAccepted(command, mission) =>
              && c.commandId in t.state.commands && command == t.state.commands[c.commandId]
              && Stored(t.state, c.missionId) == Some(mission)
            case CancelReplay(_, _) => t.state == s
            case CancelRejected(_, mission) => t.state.missions == s.missions && mission == Stored(s, c.missionId)
  {
    hide CancelSignature, CancelRefusal, Settles, CancelSequence, ReasonPayload, CreateDomainEvent, CreateAuditEvent;
  }

  /** The results of edge messages and checks carry the mission and the robot as they are stored now. */
  lemma MessagesAnswered(s: DomainState, ack: Ack, o: TimeoutInput, x: TelemetryReport)
    requires KeyedById(s)
    ensures var t := ApplyCommandAck(s, ack);
            t.result.AckProcessed? ==> Stored(t.state, s.commands[ack.commandId].missionId) == Some(t.result.mission)
    ensures var t := ApplyMissionTimeout(s, o);
            t.result.TimedOut? ==> Stored(t.state, o.missionId) == Some(t.result.mission)
    ensures var t := IngestRobotTelemetry(s, x);
            && (t.result.TelemetryDuplicate? <==> x.eventId in s.processedEventIds)
            && (t.result.TelemetryDuplicate? ==> t.state == s)
            && (t.result.TelemetryProcessed? ==> StoredRobot(t.state, x.robotId) == Some(t.result.robot))
  {
    hide CreateDomainEvent, CreateAuditEvent, AckedRobot, ReportedMission, LifecycleFromAck, IsActive;
  }

  lemma ConnectionsAnswered(s: DomainState, f: FreshnessInput, r: ReconnectInput, config: DomainConfig)
    requires KeyedById(s)
    ensures var t := EvaluateTelemetryFreshness(s, f, config);
            t.result.FreshnessUpdated? ==> StoredRobot(t.state, f.robotId) == Some(t.result.robot)
    ensures var t := BeginReconnect(s, r);
            && (t.result.ReconnectUnknownRobot? <==> r.robotId !in s.robots)
            && (t.result.ReconnectUnknownRobot? ==> t.state == s)
            && (t.result.ReconnectProcessed? ==> StoredRobot(t.state, r.robotId) == Some(t.result.robot))
  {
    hide CreateDomainEvent, CreateAuditEvent, CurrentActive, WithStatus, FreshConnection;
  }

  lemma HandshakesAnswered(s: DomainState, h: HandshakeReport, now: Option<Time>, correlationId: Id)
    requires KeyedById(s)
    ensures var t := ProcessReconnectHandshake(s, h, now, correlationId);
            && (t.result.HandshakeDuplicate? <==> h.edgeSessionId in s.processedSessionIds)
            && (t.result.HandshakeDuplicate? ==> t.state == s)
            && (t.result.HandshakeProcessed? ==>
                  && t.result.mission
                     == (if Concerned(s, h).Some? then Stored(t.state, Concerned(s, h).value) else None)
                  && t.result.decision == DecideReconciliation(s, h))
  {
    hide CreateDomainEvent, CreateAuditEvent, DecideReconciliation, ReconciledMission, ReconciledRobot, Concerned;
    HandshakeNames(s, h, now.Or(h.connectedAt));
  }
}
