/** What each reducer decides, as conditions on the message and on the state before it. */
module Decisions {
  import opened Texts
  import opened KeySort
  import opened Json
  import opened FleetState
  import opened Dispatch
  import opened Cancel
  import opened Acknowledge
  import opened Telemetry
  import opened Reconnect

  /******* Payloads *******/

  const AT_X: Text := Ascii("x")
  const AT_Y: Text := Ascii("y")
  const AT_THETA: Text := Ascii("theta")
  const UNDER_TARGET: Text := Ascii("target")
  const UNDER_REASON: Text := Ascii("reason")

  predicate HasNumber(v: Json, key: Text) {
    v.JObject? && exists m | m in v.members :: m.key == key && m.value.JNumber?
  }

  predicate IsPose(v: Json) {
    HasNumber(v, AT_X) && HasNumber(v, AT_Y) && HasNumber(v, AT_THETA)
  }

  /** The object under `target`. */
  predicate IsTarget(payload: Json, target: Json) {
    payload.JObject? && target.JObject? && Member(UNDER_TARGET, target) in payload.members
  }

  predicate HasTarget(payload: Json) {
    payload.JObject? && exists m | m in payload.members :: IsTarget(payload, m.value)
  }

  predicate GivesReason(payload: Json) {
    payload.JObject?
    && exists m | m in payload.members :: m.key == UNDER_REASON && m.value.JString? && m.value.s != []
  }

  /** A motion names a target with three numbers, a cancellation a reason; anything else only has to be an object. */
  predicate ValidPayload(t: CommandType, payload: Json) {
    && payload.JObject?
    && (t.GoToPose? ==> exists m | m in payload.members :: IsTarget(payload, m.value) && IsPose(m.value))
    && (t.CancelMission? ==> GivesReason(payload))
  }

  /** What is wrong with it. */
  predicate HasIssue(t: CommandType, payload: Json, issue: PayloadIssue) {
    match issue
    case AtPayload => !payload.JObject?
    case AtTarget => t.GoToPose? && payload.JObject? && !HasTarget(payload)
    case AtX => t.GoToPose? && LacksNumber(payload, AT_X)
    case AtY => t.GoToPose? && LacksNumber(payload, AT_Y)
    case AtTheta => t.GoToPose? && LacksNumber(payload, AT_THETA)
    case AtReason => t.CancelMission? && payload.JObject? && !GivesReason(payload)
  }

  predicate LacksNumber(payload: Json, key: Text) {
    payload.JObject? && exists m | m in payload.members :: IsTarget(payload, m.value) && !HasNumber(m.value, key)
  }

  lemma {:induction false} FindsMember(ms: seq<Member<Json>>, key: Text)
    ensures FindMember(ms, key).Some? ==> Member(key, FindMember(ms, key).value) in ms
    ensures DistinctKeys(ms) ==> forall m | m in ms && m.key == key :: FindMember(ms, key) == Some(m.value)
  {
    if ms != [] {
      FindsMember(ms[1..], key);
      assert ms == [ms[0]] + ms[1..];
    }
  }

  lemma NumberFound(v: JsonTree, key: Text)
    ensures NumberField(v, key).Some? <==> HasNumber(v, key)
    ensures forall n: Number :: NumberField(v, key) == Some(n) <==> v.JObject? && Member(key, JNumber(n)) in v.members
  {
    if v.JObject? {
      FindsMember(v.members, key);
      hide FindMember;
    }
  }

  lemma TargetFound(payload: JsonTree)
    requires payload.JObject?
    ensures var target := Field(payload, TARGET);
            && (target.Some? && target.value.JObject? <==> HasTarget(payload))
            && (target.Some? ==> WellFormed(target.value))
            && (forall v | IsTarget(payload, v) :: target == Some(v))
            && (target.Some? && target.value.JObject? ==> IsTarget(payload, target.value))
  {
    FindsMember(payload.members, TARGET);
    hide FindMember;
  }

  /** There is one target at most. */
  lemma OnlyTarget(payload: JsonTree, target: Json)
    requires payload.JObject? && IsTarget(payload, target)
    ensures Field(payload, TARGET) == Some(target) && WellFormed(target) && HasTarget(payload)
    ensures forall v | IsTarget(payload, v) :: v == target
    ensures forall key :: LacksNumber(payload, key) <==> !HasNumber(target, key)
  {
    TargetFound(payload);
    hide Field, HasNumber;
    var m := Member(UNDER_TARGET, target);
    assert m in payload.members && IsTarget(payload, m.value);
  }

  lemma TargetIssues(payload: JsonTree, target: Json)
    requires payload.JObject? && IsTarget(payload, target)
    ensures PayloadIssues(GoToPose, payload) == [] <==> IsPose(target)
    ensures forall issue :: issue in PayloadIssues(GoToPose, payload) <==>
              || (issue.AtX? && !HasNumber(target, AT_X)) || (issue.AtY? && !HasNumber(target, AT_Y))
              || (issue.AtTheta? && !HasNumber(target, AT_THETA))
  {
    OnlyTarget(payload, target);
    NumberFound(target, AT_X);
    NumberFound(target, AT_Y);
    NumberFound(target, AT_THETA);
    hide Field, NumberField, HasNumber, LacksNumber, HasTarget;
  }

  lemma MotionExactly(payload: JsonTree)
    requires payload.JObject?
    ensures PayloadIssues(GoToPose, payload) == [] <==> ValidPayload(GoToPose, payload)
    ensures forall issue :: issue in PayloadIssues(GoToPose, payload) <==> HasIssue(GoToPose, payload, issue)
  {
    if HasTarget(payload) {
      var m :| m in payload.members && IsTarget(payload, m.value);
      OnlyTarget(payload, m.value);
      TargetIssues(payload, m.value);
      hide PayloadIssues, IsPose, HasNumber, LacksNumber, HasTarget, IsTarget, GivesReason;
    } else {
      TargetFound(payload);
      hide Field, HasNumber, IsPose, IsTarget, GivesReason;
    }
  }

  lemma ReasonExactly(payload: JsonTree)
    requires payload.JObject?
    ensures PayloadIssues(CancelMission, payload) == [] <==> ValidPayload(CancelMission, payload)
    ensures forall issue :: issue in PayloadIssues(CancelMission, payload) <==> HasIssue(CancelMission, payload, issue)
  {
    FindsMember(payload.members, REASON);
    hide FindMember, IsTarget, IsPose, LacksNumber, HasTarget;
    assert GivesReason(payload) <==> PayloadIssues(CancelMission, payload) == [];
    hide GivesReason;
  }

  lemma OthersExactly(t: CommandType, payload: JsonTree)
    requires !payload.JObject? || (!t.GoToPose? && !t.CancelMission?)
    ensures PayloadIssues(t, payload) == [] <==> ValidPayload(t, payload)
    ensures forall issue :: issue in PayloadIssues(t, payload) <==> HasIssue(t, payload, issue)
  {
    hide FindMember, IsTarget, IsPose, GivesReason, HasNumber;
  }

  /** The payload is valid if and only if nothing is wrong with it, and the complaints are exactly what is. */
  lemma PayloadExactly(t: CommandType, payload: JsonTree)
    ensures PayloadIssues(t, payload) == [] <==> ValidPayload(t, payload)
    ensures forall issue :: issue in PayloadIssues(t, payload) <==> HasIssue(t, payload, issue)
  {
    if payload.JObject? && t.GoToPose? {
      MotionExactly(payload);
    } else if payload.JObject? && t.CancelMission? {
      ReasonExactly(payload);
    } else {
      OthersExactly(t, payload);
    }
    hide PayloadIssues, ValidPayload, HasIssue;
  }

  /** The pose of a mission is the one its motion command names. */
  lemma TargetExactly(t: CommandType, payload: JsonTree, pose: Pose2D)
    ensures TargetPose(t, payload) == Some(pose) <==>
              && t.GoToPose? && payload.JObject?
              && exists m | m in payload.members ::
                   && IsTarget(payload, m.value)
                   && Member(AT_X, JNumber(pose.x)) in m.value.members
                   && Member(AT_Y, JNumber(pose.y)) in m.value.members
                   && Member(AT_THETA, JNumber(pose.theta)) in m.value.members
  {
    if t.GoToPose? && payload.JObject? && HasTarget(payload) {
      var m :| m in payload.members && IsTarget(payload, m.value);
      OnlyTarget(payload, m.value);
      PoseFound(payload, m.value, pose);
      hide TargetPose, HasTarget, LacksNumber, IsTarget;
    } else if t.GoToPose? && payload.JObject? {
      NoPoseFound(payload);
      hide TargetPose, IsTarget;
    }
  }

  lemma PoseFound(payload: JsonTree, target: Json, pose: Pose2D)
    requires payload.JObject? && IsTarget(payload, target)
    ensures target.JObject?
    ensures TargetPose(GoToPose, payload) == Some(pose) <==>
              && Member(AT_X, JNumber(pose.x)) in target.members && Member(AT_Y, JNumber(pose.y)) in target.members
              && Member(AT_THETA, JNumber(pose.theta)) in target.members
  {
    OnlyTarget(payload, target);
    NumberFound(target, AT_X);
    NumberFound(target, AT_Y);
    NumberFound(target, AT_THETA);
    hide Field, NumberField, HasNumber, LacksNumber, HasTarget, IsTarget;
  }

  lemma NoPoseFound(payload: JsonTree)
    requires payload.JObject? && !HasTarget(payload)
    ensures TargetPose(GoToPose, payload) == None
    ensures forall m | m in payload.members :: !IsTarget(payload, m.value)
  {
    TargetFound(payload);
  }

  /******* Requests *******/

  /** The key is stored for another request. */
  predicate Contradicted(s: DomainState, key: Id, signature: Text) {
    key in s.idempotencyRecords && s.idempotencyRecords[key].payloadSignature != signature
  }

  /** The key is stored for the same request, and its command and mission still are. */
  predicate Answered(s: DomainState, key: Id, signature: Text) {
    && key in s.idempotencyRecords && s.idempotencyRecords[key].payloadSignature == signature
    && s.idempotencyRecords[key].commandId in s.commands && s.idempotencyRecords[key].missionId in s.missions
  }

  /** A motion, or a command of an elevated safety class. */
  predicate NeedsFitRobot(t: CommandType, safetyClass: Option<SafetyClass>) {
    t.GoToPose? || t.ResumeMission? || safetyClass == Some(Risky) || safetyClass == Some(Emergency)
  }

  /** The robot's mission pointer is at another mission, which is active. */
  predicate BusyWithAnother(s: DomainState, r: Id, m: Id) {
    r in s.robots
    && var current := s.robots[r].activeMissionId;
       current.Some? && current.value != m && current.value in s.missions
       && IsActive(s.missions[current.value].lifecycle)
  }

  predicate PastDue(expiresAt: Time, now: Time) {
    expiresAt <= now
  }

  /** It does not last for a positive time of at most the configured length. */
  predicate BadLifetime(issuedAt: Time, expiresAt: Time, config: DomainConfig) {
    expiresAt <= issuedAt || issuedAt + config.maxCommandTtlMs < expiresAt
  }

  /** The gates of a new dispatch in the order in which they are tried. */
  const DISPATCH_GATES: seq<DispatchRejection> := [
    DUPLICATE_COMMAND_ID, COMMAND_TYPE_NOT_ALLOWED, COMMAND_PAYLOAD_INVALID, COMMAND_EXPIRED, COMMAND_TTL_INVALID,
    ROBOT_TELEMETRY_STALE, LOW_BATTERY, ROBOT_ALREADY_ASSIGNED, RECONCILIATION_IN_PROGRESS]

  predicate GateClosed(s: DomainState, d: DispatchInput, config: DomainConfig, gate: DispatchRejection) {
    match gate
    case DUPLICATE_COMMAND_ID => d.commandId in s.commands
    case COMMAND_TYPE_NOT_ALLOWED => d.commandType !in config.allowedCommandTypes
    case COMMAND_PAYLOAD_INVALID => !ValidPayload(d.commandType, d.payload)
    case COMMAND_EXPIRED => PastDue(d.expiresAt, d.now)
    case COMMAND_TTL_INVALID => BadLifetime(d.issuedAt, d.expiresAt, config)
    case ROBOT_TELEMETRY_STALE =>
      NeedsFitRobot(d.commandType, d.safetyClass)
      && (d.robotId in s.robots ==> s.robots[d.robotId].connectionState != ONLINE)
    case LOW_BATTERY =>
      NeedsFitRobot(d.commandType, d.safetyClass) && d.robotId in s.robots
      && s.robots[d.robotId].batteryPercent.Some?
      && s.robots[d.robotId].batteryPercent.value < config.lowBatteryPercent
    case ROBOT_ALREADY_ASSIGNED => BusyWithAnother(s, d.robotId, d.missionId)
    case RECONCILIATION_IN_PROGRESS => d.robotId in s.robots && s.robots[d.robotId].connectionState == RECONNECTING
    case _ => false
  }

  /** Gate `k` is closed, and no gate before it. */
  predicate FirstClosed(s: DomainState, d: DispatchInput, config: DomainConfig, k: nat)
    requires k < |DISPATCH_GATES|
  {
    GateClosed(s, d, config, DISPATCH_GATES[k]) && forall j | 0 <= j < k :: !GateClosed(s, d, config, DISPATCH_GATES[j])
  }

  /** What the rejection adds to its reason. */
  function DetailsOf(s: DomainState, d: DispatchInput, config: DomainConfig, gate: DispatchRejection): RejectionDetails
  {
    match gate
    case COMMAND_TYPE_NOT_ALLOWED => TypeDetails(d.commandType)
    case COMMAND_PAYLOAD_INVALID => IssueDetails(PayloadIssues(d.commandType, d.payload))
    case COMMAND_EXPIRED => ExpiryDetails(d.expiresAt, d.now)
    case COMMAND_TTL_INVALID => TtlDetails(d.issuedAt, d.expiresAt)
    case ROBOT_TELEMETRY_STALE =>
      ConnectionDetails(if d.robotId in s.robots then Some(s.robots[d.robotId].connectionState) else None)
    case LOW_BATTERY =>
      if d.robotId in s.robots && s.robots[d.robotId].batteryPercent.Some? then
        BatteryDetails(s.robots[d.robotId].batteryPercent.value, config.lowBatteryPercent)
      else NoDetails
    case ROBOT_ALREADY_ASSIGNED =>
      if d.robotId in s.robots && s.robots[d.robotId].activeMissionId.Some? then
        ActiveMissionDetails(s.robots[d.robotId].activeMissionId.value)
      else NoDetails
    case RECONCILIATION_IN_PROGRESS => ConnectionDetails(Some(RECONNECTING))
    case _ => NoDetails
  }

  lemma RefusalExactly(s: DomainState, d: DispatchInput, config: DomainConfig, k: nat)
    requires k < |DISPATCH_GATES|
    ensures var refusal := DispatchRefusal(s, d, config);
            && (refusal.None? <==> forall j | 0 <= j < |DISPATCH_GATES| :: !GateClosed(s, d, config, DISPATCH_GATES[j]))
            && (refusal.Some? && refusal.value.reason == DISPATCH_GATES[k] <==> FirstClosed(s, d, config, k))
            && (FirstClosed(s, d, config, k) ==>
                  refusal.value.details == DetailsOf(s, d, config, DISPATCH_GATES[k])
                  && refusal.value.safetyBlocked == (5 <= k))
  {
    PayloadExactly(d.commandType, d.payload);
    hide PayloadIssues, ValidPayload, IsActive, HasIssue;
    var g := DISPATCH_GATES;
    assert g[0] == DUPLICATE_COMMAND_ID && g[1] == COMMAND_TYPE_NOT_ALLOWED && g[2] == COMMAND_PAYLOAD_INVALID;
    assert g[3] == COMMAND_EXPIRED && g[4] == COMMAND_TTL_INVALID && g[5] == ROBOT_TELEMETRY_STALE;
    assert g[6] == LOW_BATTERY && g[7] == ROBOT_ALREADY_ASSIGNED && g[8] == RECONCILIATION_IN_PROGRESS;
  }

  /** A request the key says nothing about, well formed in itself. */
  predicate Proper(s: DomainState, d: DispatchInput, config: DomainConfig) {
    && d.commandId !in s.commands && d.commandType in config.allowedCommandTypes
    && ValidPayload(d.commandType, d.payload)
    && d.now < d.expiresAt && d.issuedAt < d.expiresAt <= d.issuedAt + config.maxCommandTtlMs
  }

  /** It may be sent to its robot: risky ones only to a robot that is online and not known to be low on battery. */
  predicate Sendable(s: DomainState, d: DispatchInput, config: DomainConfig) {
    && (NeedsFitRobot(d.commandType, d.safetyClass) ==>
          && d.robotId in s.robots && s.robots[d.robotId].connectionState == ONLINE
          && (s.robots[d.robotId].batteryPercent.Some? ==>
                config.lowBatteryPercent <= s.robots[d.robotId].batteryPercent.value))
    && !BusyWithAnother(s, d.robotId, d.missionId)
    && (d.robotId in s.robots ==> s.robots[d.robotId].connectionState != RECONNECTING)
  }

  /** The key is free for this request. */
  predicate FreshKey(s: DomainState, key: Id, signature: Text) {
    !Contradicted(s, key, signature) && !Answered(s, key, signature)
  }

  /** The gates of a dispatch as one condition. */
  predicate Acceptable(s: DomainState, d: DispatchInput, config: DomainConfig) {
    FreshKey(s, d.idempotencyKey, DispatchSignature(d)) && Proper(s, d, config) && Sendable(s, d, config)
  }

  /** It is refused, and its mission stored as refused. */
  predicate Refusable(s: DomainState, d: DispatchInput, config: DomainConfig) {
    FreshKey(s, d.idempotencyKey, DispatchSignature(d)) && !(Proper(s, d, config) && Sendable(s, d, config))
  }

  /** The first five gates are those of the request itself, the other four those of its robot. */
  lemma GatesSplit(s: DomainState, d: DispatchInput, config: DomainConfig)
    ensures Proper(s, d, config) <==> forall j | 0 <= j < 5 :: !GateClosed(s, d, config, DISPATCH_GATES[j])
    ensures Sendable(s, d, config) <==>
              forall j | 5 <= j < |DISPATCH_GATES| :: !GateClosed(s, d, config, DISPATCH_GATES[j])
  {
    hide ValidPayload, BusyWithAnother;
    var g := DISPATCH_GATES;
    assert g[0] == DUPLICATE_COMMAND_ID && g[1] == COMMAND_TYPE_NOT_ALLOWED && g[2] == COMMAND_PAYLOAD_INVALID;
    assert g[3] == COMMAND_EXPIRED && g[4] == COMMAND_TTL_INVALID && g[5] == ROBOT_TELEMETRY_STALE;
    assert g[6] == LOW_BATTERY && g[7] == ROBOT_ALREADY_ASSIGNED && g[8] == RECONCILIATION_IN_PROGRESS;
  }

  /** The verdict that drives the reducer. */
  lemma JudgeExactly(s: DomainState, d: DispatchInput, config: DomainConfig)
    ensures var v := Judge(s, d, config);
            && (v.Conflict? <==> Contradicted(s, d.idempotencyKey, DispatchSignature(d)))
            && (v.Replay? <==> Answered(s, d.idempotencyKey, DispatchSignature(d)))
            && (v.Refuse? <==> Refusable(s, d, config))
            && (v.Accept? <==> Acceptable(s, d, config))
            && (v.Conflict? || v.Replay? ==> v.existing == s.idempotencyRecords[d.idempotencyKey])
            && (v.Refuse? ==> Some(v.refusal) == DispatchRefusal(s, d, config))
            && (v.Accept? ==> DispatchRefusal(s, d, config).None?)
            && (v.Refuse? ==> (v.refusal.safetyBlocked <==> Proper(s, d, config)))
  {
    RefusalExactly(s, d, config, 0);
    GatesSplit(s, d, config);
    BlockedExactly(s, d, config);
    hide DispatchRefusal, DispatchSignature, Proper, Sendable, GateClosed, FirstClosed;
  }

  /** A refusal is for the safety of the robot if and only if the request itself is in order. */
  lemma BlockedExactly(s: DomainState, d: DispatchInput, config: DomainConfig)
    ensures var refusal := DispatchRefusal(s, d, config);
            refusal.Some? ==> (refusal.value.safetyBlocked <==> Proper(s, d, config))
  {
    PayloadExactly(d.commandType, d.payload);
    hide PayloadIssues, ValidPayload, IsActive, HasIssue, IsRisky, AssignedElsewhere;
  }

  /** What becomes of a dispatch: a conflict, a replay of the stored command, a rejection or an accepted command. */
  lemma DispatchExactly(s: DomainState, d: DispatchInput, config: DomainConfig)
    ensures var r, signature := DispatchMissionCommand(s, d, config).result, DispatchSignature(d);
            && (Contradicted(s, d.idempotencyKey, signature) <==>
                  r.DispatchRejected? && r.reason == IDEMPOTENCY_KEY_REUSE_CONFLICT)
            && (Answered(s, d.idempotencyKey, signature) <==> r.DispatchReplay?)
            && (r.DispatchReplay? ==>
                  var stored := s.idempotencyRecords[d.idempotencyKey];
                  r.command == s.commands[stored.commandId] && r.mission == s.missions[stored.missionId])
            && (Acceptable(s, d, config) <==> r.DispatchAccepted?)
  {
    hide Judge, DispatchSignature, Contradicted, Answered, Proper, Sendable, DispatchRefusal, DispatchMissionCommand;
    JudgeExactly(s, d, config);
    RefusalNamesGate(s, d, config);
    DispatchResultIs(s, d, config);
  }

  /** It is rejected by the first gate that is closed, and with the complaints if that is the payload's. */
  lemma RejectedExactly(s: DomainState, d: DispatchInput, config: DomainConfig, k: nat)
    requires k < |DISPATCH_GATES|
    ensures var r := DispatchMissionCommand(s, d, config).result;
            && (r.DispatchRejected? && r.reason == DISPATCH_GATES[k] <==>
                  FreshKey(s, d.idempotencyKey, DispatchSignature(d)) && FirstClosed(s, d, config, k))
            && (r.DispatchRejected? ==>
                  r.issues == if r.reason == COMMAND_PAYLOAD_INVALID then Some(PayloadIssues(d.commandType, d.payload))
                              else None)
  {
    hide Judge, DispatchSignature, Proper, Sendable, FirstClosed, GateClosed, PayloadIssues, Contradicted, Answered;
    hide DispatchRefusal, DispatchMissionCommand;
    JudgeExactly(s, d, config);
    RefusalExactly(s, d, config, k);
    RefusalNamesGate(s, d, config);
    DispatchResultIs(s, d, config);
  }

  lemma DispatchResultIs(s: DomainState, d: DispatchInput, config: DomainConfig)
    ensures var r := DispatchMissionCommand(s, d, config).result;
            match Judge(s, d, config)
            case Conflict(_) => r == DispatchRejected(IDEMPOTENCY_KEY_REUSE_CONFLICT, None, None)
            case Replay(stored) => r == DispatchReplay(s.commands[stored.commandId], s.missions[stored.missionId])
            case Refuse(refusal) => r.DispatchRejected? && r.reason == refusal.reason && r.issues == refusal.issues
            case Accept => r.DispatchAccepted?
  {
    hide Judge, RejectedMission, AcceptChanges, DispatchedCommand, DispatchedMission, Put, RejectionEvent;
    hide RejectionAudit;
  }

  lemma RefusalNamesGate(s: DomainState, d: DispatchInput, config: DomainConfig)
    ensures var refusal := DispatchRefusal(s, d, config);
            refusal.Some? ==>
              && refusal.value.reason in DISPATCH_GATES
              && refusal.value.issues
                 == if refusal.value.reason == COMMAND_PAYLOAD_INVALID then
                      Some(PayloadIssues(d.commandType, d.payload))
                    else None
  {
    hide PayloadIssues, IsRisky, AssignedElsewhere;
  }

  /******* Cancellations *******/

  /** The gates of a new cancellation of a known mission, in order. */
  const CANCEL_GATES: seq<DispatchRejection> := [
    MISSION_NOT_ACTIVE, DUPLICATE_COMMAND_ID, COMMAND_EXPIRED, COMMAND_TTL_INVALID]

  predicate ClosedToCancel(s: DomainState, c: CancelInput, config: DomainConfig, gate: DispatchRejection) {
    match gate
    case MISSION_NOT_ACTIVE => !(c.missionId in s.missions && IsActive(s.missions[c.missionId].lifecycle))
    case DUPLICATE_COMMAND_ID => c.commandId in s.commands
    case COMMAND_EXPIRED => PastDue(c.expiresAt, c.now)
    case COMMAND_TTL_INVALID => BadLifetime(c.issuedAt, c.expiresAt, config)
    case _ => false
  }

  predicate FirstClosedToCancel(s: DomainState, c: CancelInput, config: DomainConfig, k: nat)
    requires k < |CANCEL_GATES|
  {
    ClosedToCancel(s, c, config, CANCEL_GATES[k])
    && forall j | 0 <= j < k :: !ClosedToCancel(s, c, config, CANCEL_GATES[j])
  }

  /** The gates of a cancellation as one condition. */
  predicate Cancellable(s: DomainState, c: CancelInput, config: DomainConfig) {
    && c.missionId in s.missions && IsActive(s.missions[c.missionId].lifecycle)
    && FreshKey(s, c.idempotencyKey, CancelSignature(c)) && c.commandId !in s.commands
    && c.now < c.expiresAt && c.issuedAt < c.expiresAt <= c.issuedAt + config.maxCommandTtlMs
  }

  lemma JudgeCancelExactly(s: DomainState, c: CancelInput, config: DomainConfig)
    ensures var v := JudgeCancel(s, c, config);
            && (v.CancelAccept? <==> Cancellable(s, c, config))
            && (v.CancelReplays? <==> c.missionId in s.missions && Answered(s, c.idempotencyKey, CancelSignature(c)))
  {
    hide CancelSignature, IsActive;
  }

  /** What becomes of a cancellation, in the same way. */
  lemma CancelExactly(s: DomainState, c: CancelInput, config: DomainConfig, k: nat)
    requires k < |CANCEL_GATES|
    ensures var r, signature := RequestMissionCancellation(s, c, config).result, CancelSignature(c);
            && (c.missionId !in s.missions <==> r.CancelRejected? && r.reason == UNKNOWN_MISSION)
            && (c.missionId in s.missions && Contradicted(s, c.idempotencyKey, signature) <==>
                  r.CancelRejected? && r.reason == IDEMPOTENCY_KEY_REUSE_CONFLICT)
            && (c.missionId in s.missions && Answered(s, c.idempotencyKey, signature) <==> r.CancelReplay?)
            && (r.CancelReplay? ==>
                  var stored := s.idempotencyRecords[c.idempotencyKey];
                  r.command == s.commands[stored.commandId] && r.mission == s.missions[stored.missionId])
            && (r.CancelRejected? && r.reason == CANCEL_GATES[k] <==>
                  c.missionId in s.missions && FreshKey(s, c.idempotencyKey, signature)
                  && FirstClosedToCancel(s, c, config, k))
            && (r.CancelRejected? ==>
                  r.rejected == if c.missionId in s.missions then Some(s.missions[c.missionId]) else None)
            && (Cancellable(s, c, config) <==> r.CancelAccepted?)
  {
    CancelResultIs(s, c, config);
    hide CancelSignature, IsActive, RequestMissionCancellation;
    var g := CANCEL_GATES;
    assert g[0] == MISSION_NOT_ACTIVE && g[1] == DUPLICATE_COMMAND_ID && g[2] == COMMAND_EXPIRED;
    assert g[3] == COMMAND_TTL_INVALID;
  }

  lemma CancelResultIs(s: DomainState, c: CancelInput, config: DomainConfig)
    ensures var r := RequestMissionCancellation(s, c, config).result;
            match JudgeCancel(s, c, config)
            case CancelUnknown => r == CancelRejected(UNKNOWN_MISSION, None)
            case CancelConflict(mission) => r == CancelRejected(IDEMPOTENCY_KEY_REUSE_CONFLICT, Some(mission))
            case CancelReplays(stored) => r == CancelReplay(s.commands[stored.commandId], s.missions[stored.missionId])
            case CancelRefuse(reason, mission) => r == CancelRejected(reason, Some(mission))
            case CancelAccept(_) => r.CancelAccepted?
  {
    hide JudgeCancel, CancelCommand, CancellingMission, AcceptCancelChanges, CancelSequence, Put;
  }

  /******* Acknowledgements and timeouts *******/

  /** The acknowledgement names a stored command of a stored mission. */
  predicate NamesCommand(s: DomainState, ack: Ack) {
    ack.commandId in s.commands && s.commands[ack.commandId].missionId in s.missions
  }

  /** It claims less than the mission has already acknowledged. */
  predicate Stale(s: DomainState, ack: Ack)
    requires NamesCommand(s, ack)
  {
    var acknowledged := s.missions[s.commands[ack.commandId].missionId].lastAcknowledgedCommandSequence;
    acknowledged.Some? && ack.lastSeenCommandSequence < acknowledged.value
  }

  /** The acknowledgement counts: it is new, names a command, and is not stale. */
  predicate Counts(s: DomainState, ack: Ack) {
    ack.ackId !in s.processedAckIds && NamesCommand(s, ack) && !Stale(s, ack)
  }

  lemma JudgeAckExactly(s: DomainState, ack: Ack)
    ensures JudgeAck(s, ack).AckFresh? <==> Counts(s, ack)
    ensures JudgeAck(s, ack).AckSeen? <==> ack.ackId in s.processedAckIds
    ensures Counts(s, ack) ==>
              JudgeAck(s, ack) == AckFresh(s.commands[ack.commandId], s.missions[s.commands[ack.commandId].missionId])
  {
  }

  /** Whether an acknowledgement is taken, and if not, why; one that is not taken leaves at most its id behind. */
  lemma AckExactly(s: DomainState, ack: Ack)
    ensures var r, n := ApplyCommandAck(s, ack).result, ApplyCommandAck(s, ack).state;
            && (r.AckDuplicate? <==> ack.ackId in s.processedAckIds)
            && (r.AckUnknownCommand? <==> ack.ackId !in s.processedAckIds && !NamesCommand(s, ack))
            && (r.AckStale? <==> ack.ackId !in s.processedAckIds && NamesCommand(s, ack) && Stale(s, ack))
            && (r.AckStale? ==> r.command == s.commands[ack.commandId])
            && (r.AckProcessed? <==> Counts(s, ack))
            && (!r.AckProcessed? ==>
                  n == if r.AckDuplicate? then s else s.(processedAckIds := s.processedAckIds + [ack.ackId]))
  {
    hide AckedMission, AckedRobot;
  }

  /** The mission waits for the acknowledgement of a command. */
  predicate Waits(s: DomainState, m: Id) {
    m in s.missions && s.missions[m].lifecycle == DISPATCHED && s.missions[m].currentCommandId.Some?
  }

  /** And that command has expired. */
  predicate TimesOut(s: DomainState, t: TimeoutInput) {
    Waits(s, t.missionId)
    && var c := s.missions[t.missionId].currentCommandId.value;
       c in s.commands && s.commands[c].expiresAt <= t.now
  }

  /** A mission times out if and only if it waits for a command that has expired by now. */
  lemma TimeoutExactly(s: DomainState, t: TimeoutInput)
    ensures var r, n := ApplyMissionTimeout(s, t).result, ApplyMissionTimeout(s, t).state;
            && (r.TimeoutUnknownMission? <==> t.missionId !in s.missions)
            && (r.NotWaitingForAck? <==> t.missionId in s.missions && !Waits(s, t.missionId))
            && (r.NotExpired? <==> Waits(s, t.missionId) && !TimesOut(s, t))
            && (r.TimedOut? <==> TimesOut(s, t))
            && (!r.TimedOut? ==> n == s)
            && (r.NotWaitingForAck? || r.NotExpired? ==> r.mission == s.missions[t.missionId])
  {
  }

  /******* Connections *******/

  /** When the robot was last heard of. */
  function HeardAt(robot: Robot): Option<Time> {
    if robot.lastTelemetryReceivedAt.Some? then robot.lastTelemetryReceivedAt else robot.lastTelemetryObservedAt
  }

  /** How long it may be silent before it is called this. */
  function SilenceFor(c: Connection, config: DomainConfig): int {
    match c
    case STALE => config.telemetryStaleAfterMs
    case DEGRADED => config.telemetryDegradedAfterMs
    case _ => config.telemetryOfflineAfterMs
  }

  /** It has been silent for that long. */
  predicate SilentFor(robot: Robot, now: Time, c: Connection, config: DomainConfig) {
    HeardAt(robot).None? || HeardAt(robot).value + SilenceFor(c, config) <= now
  }

  /** The worst state that its silence justifies. */
  function Deserved(robot: Robot, now: Time, config: DomainConfig): Connection {
    if SilentFor(robot, now, OFFLINE, config) then OFFLINE
    else if SilentFor(robot, now, DEGRADED, config) then DEGRADED
    else if SilentFor(robot, now, STALE, config) then STALE
    else ONLINE
  }

  function Badness(c: Connection): nat {
    match c
    case ONLINE => 0
    case STALE => 1
    case DEGRADED => 2
    case OFFLINE => 3
    case RECONNECTING => 4
  }

  /** A freshness check gives the robot the state it deserves, and does something if and only if that is another one. */
  lemma FreshnessExactly(s: DomainState, f: FreshnessInput, config: DomainConfig)
    ensures f.robotId in s.robots ==>
              FreshConnection(s.robots[f.robotId], f.now, config) == Deserved(s.robots[f.robotId], f.now, config)
    ensures var r, n := EvaluateTelemetryFreshness(s, f, config).result, EvaluateTelemetryFreshness(s, f, config).state;
            && (r.FreshnessUnknownRobot? <==> f.robotId !in s.robots)
            && (r.FreshnessUnchanged? <==>
                  f.robotId in s.robots
                  && s.robots[f.robotId].connectionState == Deserved(s.robots[f.robotId], f.now, config))
            && (!r.FreshnessUpdated? ==> n == s)
            && (r.FreshnessUnchanged? ==> r.robot == s.robots[f.robotId])
            && (r.FreshnessUpdated? ==> r.previous == s.robots[f.robotId].connectionState)
  {
    hide CurrentActive, WithStatus;
  }

  /** Silence makes it worse and never better, whatever the thresholds are. */
  lemma SilenceWorsens(robot: Robot, now: Time, later: Time, config: DomainConfig)
    requires now <= later
    ensures Badness(FreshConnection(robot, now, config)) <= Badness(FreshConnection(robot, later, config))
  {
  }

  /******* Handshakes *******/

  /** The handshake reports a known mission. */
  predicate ReportsKnown(s: DomainState, h: HandshakeReport) {
    h.reportedMissionId.Some? && h.reportedMissionId.value in s.missions
  }

  /** The cloud has another mission for the robot than the one it reports. */
  predicate ReportsAnother(s: DomainState, h: HandshakeReport) {
    && h.robotId in s.robots && s.robots[h.robotId].activeMissionId.Some?
    && s.robots[h.robotId].activeMissionId.value in s.missions
    && s.robots[h.robotId].activeMissionId != h.reportedMissionId
  }

  /** The robot says it has seen a command that was waiting for an acknowledgement and expired before it connected. */
  predicate ClaimsExpired(s: DomainState, h: HandshakeReport)
    requires ReportsKnown(s, h)
  {
    Waits(s, h.reportedMissionId.value)
    && var c := s.missions[h.reportedMissionId.value].currentCommandId.value;
       c in s.commands && s.commands[c].expiresAt < h.connectedAt && s.commands[c].sequence <= h.lastSeenCommandSequence
  }

  /** It has not seen the latest command of the mission, and has not acknowledged the one the cloud knows of either. */
  predicate LeavesGap(s: DomainState, h: HandshakeReport)
    requires ReportsKnown(s, h)
  {
    var m := s.missions[h.reportedMissionId.value];
    m.lastCommandSequence.Some? && h.lastSeenCommandSequence < m.lastCommandSequence.value
    && h.lastAcknowledgedCommandId != m.lastAcknowledgedCommandId
  }

  /** The first objection to what the robot reports. */
  function Objection(s: DomainState, h: HandshakeReport): Option<DecisionReason> {
    if !ReportsKnown(s, h) then Some(UnknownReportedMission)
    else if ReportsAnother(s, h) then Some(ConflictingMission)
    else if ClaimsExpired(s, h) then Some(ClaimsExpiredCommand)
    else if LeavesGap(s, h) then Some(UnexplainedGap)
    else None
  }

  /** There is none, and the robot does not say that the mission has ended. */
  predicate Resumes(s: DomainState, h: HandshakeReport) {
    Objection(s, h).None? && h.reportedLifecycle != Some(SUCCEEDED) && h.reportedLifecycle != Some(FAILED)
  }

  /** The mission a handshake is about: the reported one when it is known, or else the cloud's own. */
  function Concerned(s: DomainState, h: HandshakeReport): Option<Id> {
    if ReportsKnown(s, h) then h.reportedMissionId
    else if h.robotId in s.robots && s.robots[h.robotId].activeMissionId.Some?
            && s.robots[h.robotId].activeMissionId.value in s.missions then s.robots[h.robotId].activeMissionId
    else None
  }

  /** A handshake is decided for its reported lifecycle unless there is an objection to it. */
  lemma HandshakeExactly(s: DomainState, h: HandshakeReport)
    requires KeyedById(s)
    ensures var d, objection := DecideReconciliation(s, h), Objection(s, h);
            && (d.outcome.ManualReview? <==> objection.Some?)
            && (objection.Some? ==> d.reason == objection.value)
            && (d.outcome.MarkSucceeded? <==> objection.None? && h.reportedLifecycle == Some(SUCCEEDED))
            && (d.outcome.MarkFailed? <==> objection.None? && h.reportedLifecycle == Some(FAILED))
            && (d.outcome.MarkSucceeded? ==> d.reason == ReportedSucceeded)
            && (d.outcome.MarkFailed? ==> d.reason == ReportedFailed)
            && (d.outcome.ResumeRunning? <==> Resumes(s, h))
            && (d.outcome.ResumeRunning? ==> d.reason == StatesMatch)
  {
    var current := CurrentMission(s, h.robotId);
    assert current.Some? ==> Some(current.value.missionId) == s.robots[h.robotId].activeMissionId;
  }
}
