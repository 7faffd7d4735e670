/** The two logs: what every input adds to them, and what they tell of missions and counters afterwards. */
module Records {
  import opened Texts
  import opened FleetState
  import opened Dispatch
  import opened Cancel
  import opened Acknowledge
  import opened Telemetry
  import opened Reconnect
  import opened Decisions
  import opened FleetRun
  import opened Lifecycles
  import opened Progress

  /******* What is recorded *******/

  /** The kind of the record an input leaves; repeats and checks without a result leave none. */
  function Recorded(s: DomainState, i: Input, config: DomainConfig): Option<EventType> {
    match i
    case DispatchRequest(d) =>
      if Answered(s, d.idempotencyKey, DispatchSignature(d)) then None
      else if Acceptable(s, d, config) then Some(MISSION_COMMAND_DISPATCHED)
      else Some(MISSION_COMMAND_REJECTED)
    case CancelRequest(c) =>
      if Cancellable(s, c, config) then Some(MISSION_CANCEL_REQUESTED)
      else if c.missionId in s.missions && Answered(s, c.idempotencyKey, CancelSignature(c)) then None
      else Some(MISSION_CANCEL_REJECTED)
    case CommandAck(ack) => if Counts(s, ack) then Some(MISSION_COMMAND_ACKED) else None
    case MissionTimeout(t) => if TimesOut(s, t) then Some(MISSION_COMMAND_TIMEOUT) else None
    case RobotTelemetry(t) => if t.eventId in s.processedEventIds then None else Some(ROBOT_TELEMETRY_RECEIVED)
    case FreshnessCheck(f) => if Refreshes(s, f, config) then Some(ROBOT_CONNECTION_FRESHNESS_CHANGED) else None
    case ReconnectStarted(r) => if r.robotId in s.robots then Some(ROBOT_RECONNECT_STARTED) else None
    case ReconnectHandshake(h, _, _) =>
      if h.edgeSessionId in s.processedSessionIds then None else Some(MISSION_RECONCILIATION_COMPLETED)
    case EdgeConnected(_, _, _) => None
  }

  /** Who it is put down to. */
  function ActorOf(kind: EventType): ActorType {
    match kind
    case MISSION_COMMAND_DISPATCHED => Operator
    case MISSION_CANCEL_REQUESTED => Operator
    case MISSION_COMMAND_ACKED => Edge
    case ROBOT_TELEMETRY_RECEIVED => Edge
    case _ => System
  }

  /** The active mission the robot points at. */
  function OccupiedBy(s: DomainState, r: Id): Option<Id> {
    if r in s.robots && s.robots[r].activeMissionId.Some? && ActiveIn(s, s.robots[r].activeMissionId.value) then
      s.robots[r].activeMissionId
    else None
  }

  /** The mission the record names. */
  function MissionNamed(s: DomainState, i: Input): Option<Id> {
    match i
    case DispatchRequest(d) => Some(d.missionId)
    case CancelRequest(c) => if c.missionId in s.missions then Some(c.missionId) else None
    case CommandAck(ack) => if NamesCommand(s, ack) then Some(s.commands[ack.commandId].missionId) else None
    case MissionTimeout(t) => Some(t.missionId)
    case RobotTelemetry(t) => t.currentMissionId
    case FreshnessCheck(f) => OccupiedBy(s, f.robotId)
    case ReconnectStarted(r) => OccupiedBy(s, r.robotId)
    case ReconnectHandshake(h, _, _) => Concerned(s, h)
    case EdgeConnected(_, _, _) => None
  }

  /** The robot it names. */
  function RobotNamed(s: DomainState, i: Input): Option<Id> {
    match i
    case DispatchRequest(d) => Some(d.robotId)
    case CancelRequest(c) => if c.missionId in s.missions then Some(s.missions[c.missionId].robotId) else None
    case CommandAck(ack) => Some(ack.robotId)
    case MissionTimeout(t) => if t.missionId in s.missions then Some(s.missions[t.missionId].robotId) else None
    case RobotTelemetry(t) => Some(t.robotId)
    case FreshnessCheck(f) => Some(f.robotId)
    case ReconnectStarted(r) => Some(r.robotId)
    case ReconnectHandshake(h, _, _) => Some(h.robotId)
    case EdgeConnected(r, _, _) => Some(r)
  }

  /** And the command. */
  function CommandNamed(s: DomainState, i: Input): Option<Id> {
    match i
    case DispatchRequest(d) => Some(d.commandId)
    case CancelRequest(c) => Some(c.commandId)
    case CommandAck(ack) => Some(ack.commandId)
    case MissionTimeout(t) => if t.missionId in s.missions then s.missions[t.missionId].currentCommandId else None
    case RobotTelemetry(t) => t.lastAcknowledgedCommandId
    case ReconnectHandshake(h, _, _) => h.lastAcknowledgedCommandId
    case _ => None
  }

  /** What the domain event is about. */
  function Subject(s: DomainState, i: Input): (AggregateType, Id) {
    match i
    case DispatchRequest(d) => (MissionAggregate, d.missionId)
    case CancelRequest(c) => (if c.missionId in s.missions then MissionAggregate else SystemAggregate, c.missionId)
    case CommandAck(ack) => (CommandAggregate, ack.commandId)
    case MissionTimeout(t) => (MissionAggregate, t.missionId)
    case RobotTelemetry(t) => (RobotAggregate, t.robotId)
    case FreshnessCheck(f) => (RobotAggregate, f.robotId)
    case ReconnectStarted(r) => (RobotAggregate, r.robotId)
    case ReconnectHandshake(h, _, _) =>
      (match Concerned(s, h)
       case Some(m) => (MissionAggregate, m)
       case None => (RobotAggregate, h.robotId))
    case EdgeConnected(r, _, _) => (RobotAggregate, r)
  }

  const CORR: Text := Ascii("corr_")
  const CORR_FRESHNESS: Text := Ascii("corr_freshness_")

  /** The conversation the record belongs to. */
  function Conversation(i: Input): Text {
    match i
    case DispatchRequest(d) => d.correlationId
    case CancelRequest(c) => c.correlationId
    case CommandAck(ack) => ack.correlationId
    case MissionTimeout(t) => t.correlationId
    case RobotTelemetry(t) => CORR + t.eventId
    case FreshnessCheck(f) => if f.correlationId.Some? then f.correlationId.value else CORR_FRESHNESS + f.robotId
    case ReconnectStarted(r) => r.correlationId
    case ReconnectHandshake(_, _, correlationId) => correlationId
    case EdgeConnected(_, _, _) => []
  }

  /** What caused it. */
  function Cause(s: DomainState, i: Input): Option<Id> {
    match i
    case DispatchRequest(d) => Some(d.causationId)
    case CancelRequest(c) => Some(c.causationId)
    case CommandAck(ack) => Some(ack.causationId)
    case MissionTimeout(t) => CommandNamed(s, i)
    case RobotTelemetry(t) => Some(t.eventId)
    case ReconnectHandshake(h, _, _) => Some(h.edgeSessionId)
    case _ => None
  }

  /** The reason of a rejected cancellation. */
  function CancelObjection(s: DomainState, c: CancelInput): DispatchRejection {
    if c.missionId !in s.missions then UNKNOWN_MISSION
    else if Contradicted(s, c.idempotencyKey, CancelSignature(c)) then IDEMPOTENCY_KEY_REUSE_CONFLICT
    else if !ActiveIn(s, c.missionId) then MISSION_NOT_ACTIVE
    else if c.commandId in s.commands then DUPLICATE_COMMAND_ID
    else if PastDue(c.expiresAt, c.now) then COMMAND_EXPIRED
    else COMMAND_TTL_INVALID
  }

  /** Why a dispatch is rejected, with what speaks against it. */
  function DispatchObjection(s: DomainState, d: DispatchInput, config: DomainConfig): EventPayload {
    if Contradicted(s, d.idempotencyKey, DispatchSignature(d)) then
      Rejection(IDEMPOTENCY_KEY_REUSE_CONFLICT, ExistingCommand(s.idempotencyRecords[d.idempotencyKey].commandId))
    else
      var gate := FirstClosedGate(s, d, config).Or(DUPLICATE_COMMAND_ID);
      Rejection(gate, DetailsOf(s, d, config, gate))
  }

  /** The outcome in the words of the protocol. */
  function OutcomeOf(s: DomainState, h: HandshakeReport): Outcome {
    if Objection(s, h).Some? then ManualReview
    else if h.reportedLifecycle == Some(SUCCEEDED) then MarkSucceeded
    else if h.reportedLifecycle == Some(FAILED) then MarkFailed
    else ResumeRunning
  }

  function ReasonOf(s: DomainState, h: HandshakeReport): DecisionReason {
    match Objection(s, h)
    case Some(reason) => reason
    case None =>
      if h.reportedLifecycle == Some(SUCCEEDED) then ReportedSucceeded
      else if h.reportedLifecycle == Some(FAILED) then ReportedFailed
      else StatesMatch
  }

  /** What the domain event says happened. */
  function Says(s: DomainState, i: Input, config: DomainConfig): EventPayload
    requires Recorded(s, i, config).Some?
  {
    match i
    case DispatchRequest(d) =>
      if Acceptable(s, d, config) then CommandSummary(d.commandId, d.robotId, NumberFor(s, d.robotId, 0))
      else DispatchObjection(s, d, config)
    case CancelRequest(c) =>
      if Cancellable(s, c, config) then
        var r := s.missions[c.missionId].robotId;
        CommandSummary(c.commandId, r, NumberFor(s, r, KnownSequence(s, c.missionId)))
      else Rejection(CancelObjection(s, c), NoDetails)
    case CommandAck(ack) =>
      var c := s.commands[ack.commandId];
      AckSummary(ack.status, c.commandType, LifecycleAfter(s, i, c.missionId, config).Or(RUNNING), Some(c.missionId),
                 Some(ack.robotId), ack.lastSeenCommandSequence)
    case MissionTimeout(t) => TimeoutSummary(s.missions[t.missionId].currentCommandId.value)
    case RobotTelemetry(t) => TelemetrySummary(t)
    case FreshnessCheck(f) =>
      ConnectionChange(s.robots[f.robotId].connectionState, Some(Deserved(s.robots[f.robotId], f.now, config)))
    case ReconnectStarted(r) => ConnectionChange(s.robots[r.robotId].connectionState, None)
    case ReconnectHandshake(h, _, _) => Reconciled(OutcomeOf(s, h), ReasonOf(s, h), h)
  }

  /** What the audit record explains. */
  function Explains(s: DomainState, i: Input, config: DomainConfig): EventPayload
    requires Recorded(s, i, config).Some?
  {
    var said := Says(s, i, config);
    match i
    case DispatchRequest(d) =>
      if Acceptable(s, d, config) then DispatchDetails(d.commandType, NumberFor(s, d.robotId, 0)) else said
    case CancelRequest(c) =>
      if Cancellable(s, c, config) then
        CancelDetails(c.reason, NumberFor(s, s.missions[c.missionId].robotId, KnownSequence(s, c.missionId)))
      else said
    case CommandAck(ack) =>
      var c := s.commands[ack.commandId];
      AckSummary(ack.status, c.commandType, LifecycleAfter(s, i, c.missionId, config).Or(RUNNING), None, None,
                 ack.lastSeenCommandSequence)
    case MissionTimeout(t) => TimeoutDetails(s.commands[s.missions[t.missionId].currentCommandId.value].expiresAt)
    case _ => said
  }

  function EventAfter(s: DomainState, i: Input, config: DomainConfig): EventFields
    requires Recorded(s, i, config).Some?
  {
    var subject := Subject(s, i);
    EventFields(Recorded(s, i, config).value, subject.0, subject.1,
                if i.RobotTelemetry? then i.telemetry.observedAt else ClockOf(i), ClockOf(i), Conversation(i),
                Cause(s, i), Says(s, i, config))
  }

  function AuditAfter(s: DomainState, i: Input, config: DomainConfig): AuditFields
    requires Recorded(s, i, config).Some?
  {
    var kind := Recorded(s, i, config).value;
    AuditFields(ActorOf(kind), kind, ClockOf(i), MissionNamed(s, i), RobotNamed(s, i), CommandNamed(s, i),
                Conversation(i), Cause(s, i), Explains(s, i, config))
  }

  /** What a reducer hands to its caller besides the state. */
  function Emitted(s: DomainState, i: Input, config: DomainConfig): (seq<DomainEvent>, seq<AuditEvent>) {
    match i
    case DispatchRequest(d) => var t := DispatchMissionCommand(s, d, config); (t.domainEvents, t.auditEvents)
    case CancelRequest(c) => var t := RequestMissionCancellation(s, c, config); (t.domainEvents, t.auditEvents)
    case CommandAck(ack) => var t := ApplyCommandAck(s, ack); (t.domainEvents, t.auditEvents)
    case MissionTimeout(x) => var t := ApplyMissionTimeout(s, x); (t.domainEvents, t.auditEvents)
    case RobotTelemetry(x) => var t := IngestRobotTelemetry(s, x); (t.domainEvents, t.auditEvents)
    case FreshnessCheck(f) => var t := EvaluateTelemetryFreshness(s, f, config); (t.domainEvents, t.auditEvents)
    case ReconnectStarted(r) => var t := BeginReconnect(s, r); (t.domainEvents, t.auditEvents)
    case ReconnectHandshake(h, now, correlationId) =>
      var t := ProcessReconnectHandshake(s, h, now, correlationId); (t.domainEvents, t.auditEvents)
    case EdgeConnected(_, _, _) => ([], [])
  }

  /** Both logs after every input: at most one record more in each, numbered, with all of this in it. */
  ghost predicate LoggedAs(s: DomainState, i: Input, config: DomainConfig) {
    var n, emitted := Step(s, i, config), Emitted(s, i, config);
    && n.domainEvents == s.domainEvents + emitted.0 && n.auditEvents == s.auditEvents + emitted.1
    && emitted
       == if Recorded(s, i, config).None? then ([], [])
          else
            ([DomainEvent(DomainEventId(|s.domainEvents| + 1), EventAfter(s, i, config))],
             [AuditEvent(AuditEventId(|s.auditEvents| + 1), AuditAfter(s, i, config))])
  }

  lemma DispatchLogged(s: DomainState, d: DispatchInput, config: DomainConfig)
    ensures LoggedAs(s, DispatchRequest(d), config)
  {
    hide DomainEventId, AuditEventId, DispatchSignature, TargetPose, Judge, Contradicted, Answered, Proper, Sendable;
    hide FirstClosedGate, DetailsOf, RejectedMission, AcceptChanges, PayloadIssues;
    JudgeExactly(s, d, config);
    if Judge(s, d, config).Refuse? {
      RefusedFor(s, d, config);
      RefusedWith(s, d, config);
    }
  }

  lemma RefusedWith(s: DomainState, d: DispatchInput, config: DomainConfig)
    requires Judge(s, d, config).Refuse?
    ensures var refusal := Judge(s, d, config).refusal;
            refusal.details == DetailsOf(s, d, config, refusal.reason)
  {
    JudgeExactly(s, d, config);
    RefusalNamesGate(s, d, config);
    hide Judge, DispatchRefusal, Refusable, Acceptable, Contradicted, Answered, Proper, PayloadIssues;
    var refusal := Judge(s, d, config).refusal;
    var k :| 0 <= k < |DISPATCH_GATES| && DISPATCH_GATES[k] == refusal.reason;
    RefusalExactly(s, d, config, k);
    hide GateClosed, FirstClosed, DetailsOf;
  }

  /** The verdict on a cancellation carries the stored mission and the reason. */
  lemma CancelRejectedWith(s: DomainState, c: CancelInput, config: DomainConfig)
    requires KeyedById(s)
    ensures match JudgeCancel(s, c, config)
            case CancelUnknown => c.missionId !in s.missions
            case CancelConflict(mission) =>
              && c.missionId in s.missions && mission == s.missions[c.missionId] && mission.missionId == c.missionId
              && CancelObjection(s, c) == IDEMPOTENCY_KEY_REUSE_CONFLICT
            case CancelReplays(_) => c.missionId in s.missions
            case CancelRefuse(reason, mission) =>
              && c.missionId in s.missions && mission == s.missions[c.missionId] && mission.missionId == c.missionId
              && CancelObjection(s, c) == reason
            case CancelAccept(mission) => mission.missionId == c.missionId
  {
    hide CancelSignature, IsActive;
  }

  lemma CancelLogged(s: DomainState, c: CancelInput, config: DomainConfig)
    requires KeyedById(s)
    ensures LoggedAs(s, CancelRequest(c), config)
  {
    hide DomainEventId, AuditEventId, CancelSignature, ReasonPayload, AcceptCancelChanges, JudgeCancel, KeyedById;
    hide Answered, Contradicted, ActiveIn;
    JudgeCancelExactly(s, c, config);
    CancelRejectedWith(s, c, config);
  }

  lemma AckedLifecycle(s: DomainState, ack: Ack, config: DomainConfig)
    requires KeyedById(s) && Counts(s, ack)
    ensures var c := s.commands[ack.commandId];
            var mission := AckedMission(ack, c, s.missions[c.missionId]);
            && LifecycleAfter(s, CommandAck(ack), c.missionId, config) == Some(mission.lifecycle)
            && mission.missionId == c.missionId
  {
    hide Stale;
  }

  lemma AckLogged(s: DomainState, ack: Ack, config: DomainConfig)
    requires KeyedById(s)
    ensures LoggedAs(s, CommandAck(ack), config)
  {
    hide DomainEventId, AuditEventId, AckedChanges, JudgeAck, Stale, KeyedById, LifecycleAfter, AckedMission;
    JudgeAckExactly(s, ack);
    if Counts(s, ack) {
      AckedLifecycle(s, ack, config);
    }
  }

  lemma TimeoutLogged(s: DomainState, t: TimeoutInput, config: DomainConfig)
    ensures LoggedAs(s, MissionTimeout(t), config)
  {
    hide DomainEventId, AuditEventId, TimedOutMission;
  }

  lemma TelemetryLogged(s: DomainState, t: TelemetryReport, config: DomainConfig)
    ensures LoggedAs(s, RobotTelemetry(t), config)
  {
    hide DomainEventId, AuditEventId, TelemetryChanges, ReportedRobot;
  }

  lemma CurrentIs(s: DomainState, r: Id)
    requires KeyedById(s) && r in s.robots
    ensures var current := CurrentActive(s, s.robots[r]);
            OccupiedBy(s, r) == if current.Some? then Some(current.value.missionId) else None
  {
    hide IsActive;
  }

  lemma FreshnessLogged(s: DomainState, f: FreshnessInput, config: DomainConfig)
    requires KeyedById(s)
    ensures LoggedAs(s, FreshnessCheck(f), config)
  {
    hide DomainEventId, AuditEventId, FreshnessChanges, FreshConnection, Deserved, CurrentActive, OccupiedBy;
    FreshnessExactly(s, f, config);
    if f.robotId in s.robots {
      CurrentIs(s, f.robotId);
    }
  }

  lemma ReconnectLogged(s: DomainState, r: ReconnectInput, config: DomainConfig)
    requires KeyedById(s)
    ensures LoggedAs(s, ReconnectStarted(r), config)
  {
    hide DomainEventId, AuditEventId, ReconnectChanges, CurrentActive, OccupiedBy;
    if r.robotId in s.robots {
      CurrentIs(s, r.robotId);
    }
  }

  lemma HandshakeLogged(s: DomainState, h: HandshakeReport, now: Option<Time>, correlationId: Id, config: DomainConfig)
    requires KeyedById(s)
    ensures LoggedAs(s, ReconnectHandshake(h, now, correlationId), config)
  {
    hide DomainEventId, AuditEventId, HandshakeChanges, DecideReconciliation, ReconciledMission, Objection, Concerned;
    HandshakeExactly(s, h);
    HandshakeNames(s, h, now.Or(h.connectedAt));
  }

  /** Every input adds to both logs exactly what the tables say. */
  lemma LogsExact(s: DomainState, i: Input, config: DomainConfig)
    requires KeyedById(s)
    ensures LoggedAs(s, i, config)
  {
    match i
    case DispatchRequest(d) => DispatchLogged(s, d, config);
    case CancelRequest(c) => CancelLogged(s, c, config);
    case CommandAck(ack) => AckLogged(s, ack, config);
    case MissionTimeout(t) => TimeoutLogged(s, t, config);
    case RobotTelemetry(t) => TelemetryLogged(s, t, config);
    case FreshnessCheck(f) => FreshnessLogged(s, f, config);
    case ReconnectStarted(r) => ReconnectLogged(s, r, config);
    case ReconnectHandshake(h, now, correlationId) => HandshakeLogged(s, h, now, correlationId, config);
    case EdgeConnected(_, _, _) =>
      hide ConnectChanges;
  }

  /******* What the log tells *******/

  /** The reasons for which a rejected dispatch leaves its mission blocked for safety. */
  predicate ForSafety(reason: DispatchRejection) {
    reason.ROBOT_TELEMETRY_STALE? || reason.LOW_BATTERY? || reason.ROBOT_ALREADY_ASSIGNED?
    || reason.RECONCILIATION_IN_PROGRESS?
  }

  /** The lifecycle of mission `m` as one event tells it, given what the events before it told. */
  function Told(e: EventFields, m: Id, before: Option<Lifecycle>): Option<Lifecycle> {
    match e.payload
    case CommandSummary(_, _, _) =>
      if e.aggregateId != m then before
      else if e.eventType == MISSION_COMMAND_DISPATCHED then Some(DISPATCHED)
      else Some(CANCEL_REQUESTED)
    case Rejection(reason, _) =>
      if e.eventType != MISSION_COMMAND_REJECTED || e.aggregateId != m || reason == IDEMPOTENCY_KEY_REUSE_CONFLICT then
        before
      else if ForSafety(reason) then Some(SAFETY_BLOCKED)
      else Some(REJECTED)
    case AckSummary(_, _, lifecycle, mission, _, _) => if mission == Some(m) then Some(lifecycle) else before
    case TimeoutSummary(_) => if e.aggregateId == m then Some(TIMED_OUT) else before
    case TelemetrySummary(t) =>
      if t.currentMissionId == Some(m) && before == Some(DISPATCHED) then Some(RUNNING) else before
    case Reconciled(outcome, _, _) =>
      if e.aggregateType != MissionAggregate || e.aggregateId != m then before
      else
        (match outcome
         case ResumeRunning => Some(RUNNING)
         case MarkSucceeded => Some(SUCCEEDED)
         case MarkFailed => Some(FAILED)
         case ManualReview => Some(MANUAL_REVIEW))
    case _ => before
  }

  /** The lifecycle of mission `m` as the whole log tells it. */
  function Replayed(log: seq<DomainEvent>, m: Id): Option<Lifecycle> {
    if log == [] then None else Told(log[|log| - 1].fields, m, Replayed(log[..|log| - 1], m))
  }

  /** The next sequence of robot `r` as one event tells it. */
  function NumberTold(e: EventFields, r: Id, before: Option<int>): Option<int> {
    match e.payload
    case CommandSummary(_, robotId, sequence) => if robotId == r then Some(sequence + 1) else before
    case _ => before
  }

  function NumberReplayed(log: seq<DomainEvent>, r: Id): Option<int> {
    if log == [] then None else NumberTold(log[|log| - 1].fields, r, NumberReplayed(log[..|log| - 1], r))
  }

  function CounterOf(s: DomainState, r: Id): Option<int> {
    if r in s.nextSequence then Some(s.nextSequence[r]) else None
  }

  /** The first closed gate is one for safety exactly when the request itself is in order. */
  lemma SafetyGates(s: DomainState, d: DispatchInput, config: DomainConfig)
    requires Refusable(s, d, config)
    ensures FirstClosedGate(s, d, config).Some?
    ensures ForSafety(FirstClosedGate(s, d, config).value) <==> Proper(s, d, config)
    ensures FirstClosedGate(s, d, config) != Some(IDEMPOTENCY_KEY_REUSE_CONFLICT)
  {
    JudgeExactly(s, d, config);
    RefusedFor(s, d, config);
    RefusalReasons(s, d, config);
    hide Judge, Refusable, Proper, DispatchRefusal, FirstClosedGate, Contradicted, Answered;
  }

  lemma RefusalReasons(s: DomainState, d: DispatchInput, config: DomainConfig)
    ensures var refusal := DispatchRefusal(s, d, config);
            refusal.Some? ==>
              && (refusal.value.safetyBlocked <==> ForSafety(refusal.value.reason))
              && refusal.value.reason != IDEMPOTENCY_KEY_REUSE_CONFLICT
  {
    hide PayloadIssues, IsRisky, AssignedElsewhere;
  }

  predicate TellsLifecycle(s: DomainState, i: Input, m: Id, config: DomainConfig) {
    LifecycleAfter(s, i, m, config)
    == if Recorded(s, i, config).None? then LifecycleOf(s, m)
       else Told(EventAfter(s, i, config), m, LifecycleOf(s, m))
  }

  lemma RequestTold(s: DomainState, i: Input, m: Id, config: DomainConfig)
    requires KeyedById(s) && (i.DispatchRequest? || i.CancelRequest?)
    ensures TellsLifecycle(s, i, m, config)
  {
    hide FirstClosedGate, DetailsOf, Proper, Sendable, Contradicted, Answered, CancelObjection, ForSafety, KeyedById;
    hide Cancellable, NumberFor, KnownSequence;
    match i
    case DispatchRequest(d) =>
      if Refusable(s, d, config) {
        SafetyGates(s, d, config);
      }
    case CancelRequest(c) => CancellableIsKnown(s, c, config);
  }

  lemma MessageTold(s: DomainState, i: Input, m: Id, config: DomainConfig)
    requires KeyedById(s) && !i.DispatchRequest? && !i.CancelRequest?
    ensures TellsLifecycle(s, i, m, config)
  {
    hide Stale, Concerned, Objection, Refreshes, KeyedById, ReasonOf, Deserved;
    match i
    case CommandAck(_) =>
    case MissionTimeout(_) =>
    case RobotTelemetry(_) =>
    case FreshnessCheck(_) =>
    case ReconnectStarted(_) =>
    case ReconnectHandshake(_, _, _) =>
    case EdgeConnected(_, _, _) =>
  }

  /** A step that records nothing changes no lifecycle; otherwise its event tells the change. */
  lemma StepTold(s: DomainState, i: Input, m: Id, config: DomainConfig)
    requires KeyedById(s)
    ensures TellsLifecycle(s, i, m, config)
  {
    hide TellsLifecycle, KeyedById;
    if i.DispatchRequest? || i.CancelRequest? {
      RequestTold(s, i, m, config);
    } else {
      MessageTold(s, i, m, config);
    }
  }

  lemma CancellableIsKnown(s: DomainState, c: CancelInput, config: DomainConfig)
    ensures Cancellable(s, c, config) ==> c.missionId in s.missions
  {
  }

  lemma StepNumberTold(s: DomainState, i: Input, r: Id, config: DomainConfig)
    requires KeyedById(s)
    ensures CounterOf(Step(s, i, config), r)
         == if Recorded(s, i, config).None? then CounterOf(s, r)
            else NumberTold(EventAfter(s, i, config), r, CounterOf(s, r))
  {
    hide Step, FirstClosedGate, DetailsOf, Proper, Sendable, Contradicted, CancelObjection, Stale, Concerned, Objection;
    hide Refreshes, KeyedById, ReasonOf, Deserved, LifecycleAfter;
    BooksExact(s, i, config);
  }

  lemma Extended(s: DomainState, i: Input, config: DomainConfig)
    requires KeyedById(s)
    ensures var before, after := s.domainEvents, Step(s, i, config).domainEvents;
            if Recorded(s, i, config).None? then after == before
            else
              |after| == |before| + 1 && after[..|before|] == before
              && after[|before|].fields == EventAfter(s, i, config)
  {
    LogsExact(s, i, config);
    hide Step, Emitted, EventAfter, AuditAfter, Recorded, DomainEventId, AuditEventId;
  }

  /**
   The log tells everything that happened: in every reachable state the domain events alone give the lifecycle of
   every mission and the next sequence of every robot.
   */
  lemma {:induction false} LogTells(inputs: seq<Input>, config: DomainConfig, m: Id, r: Id)
    ensures var n := Run(INITIAL_STATE, inputs, config);
            LifecycleOf(n, m) == Replayed(n.domainEvents, m) && CounterOf(n, r) == NumberReplayed(n.domainEvents, r)
    decreases |inputs|
  {
    hide Step, KeyedById, LifecycleAfter, Told, NumberTold, EventAfter, Recorded;
    if inputs != [] {
      var front, last := inputs[..|inputs| - 1], inputs[|inputs| - 1];
      var s := Run(INITIAL_STATE, front, config);
      assert inputs == front + [last];
      LogTells(front, config, m, r);
      RunAppend(INITIAL_STATE, front, [last], config);
      RunOne(s, last, config);
      RunKeyed(front, config);
      hide Run;
      LifecycleExact(s, last, m, config);
      StepTold(s, last, m, config);
      StepNumberTold(s, last, r, config);
      Extended(s, last, config);
      hide LifecycleOf, CounterOf;
    }
  }
}
