/** The reducers seen as state machines: where a mission, a robot's pointer and a connection can go, and when. */
module Lifecycles {
  import opened Texts
  import opened FleetState
  import opened Dispatch
  import opened Cancel
  import opened Acknowledge
  import opened Telemetry
  import opened Reconnect
  import opened Decisions
  import opened FleetRun

  function LifecycleOf(s: DomainState, m: Id): Option<Lifecycle> {
    if m in s.missions then Some(s.missions[m].lifecycle) else None
  }

  /** The lifecycle of mission `m` after an input, in terms of the state before it. */
  function LifecycleAfter(s: DomainState, i: Input, m: Id, config: DomainConfig): Option<Lifecycle> {
    var before := LifecycleOf(s, m);
    match i
    case DispatchRequest(d) =>
      if d.missionId != m || !FreshKey(s, d.idempotencyKey, DispatchSignature(d)) then before
      else if !Proper(s, d, config) then Some(REJECTED)
      else if !Sendable(s, d, config) then Some(SAFETY_BLOCKED)
      else Some(DISPATCHED)
    case CancelRequest(c) =>
      if c.missionId == m && Cancellable(s, c, config) then Some(CANCEL_REQUESTED) else before
    case CommandAck(ack) =>
      if !Counts(s, ack) || s.commands[ack.commandId].missionId != m then before
      else
        (match ack.status
         case Rejected => Some(REJECTED)
         case Failed => Some(FAILED)
         case Expired => Some(TIMED_OUT)
         case _ => if s.commands[ack.commandId].commandType.CancelMission? then Some(CANCELLED) else Some(RUNNING))
    case MissionTimeout(t) =>
      if t.missionId == m && TimesOut(s, t) then Some(TIMED_OUT) else before
    case RobotTelemetry(t) =>
      if t.eventId !in s.processedEventIds && t.currentMissionId == Some(m) && before == Some(DISPATCHED) then
        Some(RUNNING)
      else before
    case ReconnectHandshake(h, now, correlationId) =>
      if h.edgeSessionId in s.processedSessionIds || Concerned(s, h) != Some(m) then before
      else if Objection(s, h).Some? then Some(MANUAL_REVIEW)
      else if h.reportedLifecycle == Some(SUCCEEDED) then Some(SUCCEEDED)
      else if h.reportedLifecycle == Some(FAILED) then Some(FAILED)
      else Some(RUNNING)
    case _ => before
  }

  /** Every mission, known or not, has exactly this lifecycle after every input. */
  lemma LifecycleExact(s: DomainState, i: Input, m: Id, config: DomainConfig)
    requires KeyedById(s)
    ensures LifecycleOf(Step(s, i, config), m) == LifecycleAfter(s, i, m, config)
  {
    StepPuts(s, i, config);
    hide Step;
    LifecycleByChanges(s, i, m, config);
    hide StepChanges, LifecycleAfter;
  }

  lemma LifecycleByChanges(s: DomainState, i: Input, m: Id, config: DomainConfig)
    requires KeyedById(s)
    ensures var ch := StepChanges(s, i, config);
            LifecycleAfter(s, i, m, config)
            == if ch.mission.Some? && ch.mission.value.missionId == m then Some(ch.mission.value.lifecycle)
               else LifecycleOf(s, m)
  {
    hide DispatchSignature, CancelSignature, PayloadIssues, TargetPose, AssignedRobot, ReportedRobot;
    hide FreshConnection, JudgeCancel, CancelSequence, ReasonPayload, JudgeAck, AckChanges, HandshakeChanges;
    hide Judge, DispatchRefusal, DispatchChanges, NextSequence, DecideReconciliation, Concerned, Proper, Sendable;
    hide Cancellable, Counts, Objection, FreshKey, KeyedById;
    match i
    case DispatchRequest(d) => DispatchLifecycle(s, d, m, config);
    case CancelRequest(c) =>
      JudgeCancelExactly(s, c, config);
      CancelNames(s, c, config);
    case CommandAck(ack) => AckLifecycle(s, ack, m, config);
    case MissionTimeout(t) =>
      StoredMissionId(s, t.missionId);
      assert TimesOut(s, t) ==> t.missionId in s.missions;
    case RobotTelemetry(t) => StoredMissionId(s, t.currentMissionId.Or(m));
    case FreshnessCheck(f) => CurrentKeepsLifecycle(s, f.robotId, m);
    case ReconnectStarted(r) => CurrentKeepsLifecycle(s, r.robotId, m);
    case ReconnectHandshake(h, now, correlationId) => HandshakeLifecycle(s, h, now, correlationId, m, config);
    case EdgeConnected(robotId, hello, at) =>
  }

  lemma StoredMissionId(s: DomainState, m: Id)
    requires KeyedById(s)
    ensures m in s.missions ==> s.missions[m].missionId == m
  {
  }

  lemma CurrentKeepsLifecycle(s: DomainState, r: Id, m: Id)
    requires KeyedById(s)
    ensures r in s.robots ==>
              var current := CurrentActive(s, s.robots[r]);
              current.Some? && current.value.missionId == m ==> Some(current.value.lifecycle) == LifecycleOf(s, m)
  {
  }

  lemma AckLifecycle(s: DomainState, ack: Ack, m: Id, config: DomainConfig)
    requires KeyedById(s)
    ensures var ch := AckChanges(s, ack);
            LifecycleAfter(s, CommandAck(ack), m, config)
            == if ch.mission.Some? && ch.mission.value.missionId == m then Some(ch.mission.value.lifecycle)
               else LifecycleOf(s, m)
  {
    JudgeAckExactly(s, ack);
    hide AckedRobot, JudgeAck, Stale;
  }

  lemma HandshakeLifecycle(s: DomainState, h: HandshakeReport, now: Option<Time>, correlationId: Id, m: Id,
                           config: DomainConfig)
    requires KeyedById(s)
    ensures var ch := HandshakeChanges(s, h, now);
            LifecycleAfter(s, ReconnectHandshake(h, now, correlationId), m, config)
            == if ch.mission.Some? && ch.mission.value.missionId == m then Some(ch.mission.value.lifecycle)
               else LifecycleOf(s, m)
  {
    hide DecideReconciliation, Concerned, Objection, ReconciledRobot, ReconciledMission;
    HandshakeExactly(s, h);
    HandshakeNames(s, h, now.Or(h.connectedAt));
  }

  lemma DispatchLifecycle(s: DomainState, d: DispatchInput, m: Id, config: DomainConfig)
    ensures var ch := DispatchChanges(s, d, config);
            LifecycleAfter(s, DispatchRequest(d), m, config)
            == if ch.mission.Some? && ch.mission.value.missionId == m then Some(ch.mission.value.lifecycle)
               else LifecycleOf(s, m)
  {
    hide Judge, DispatchRefusal, DispatchSignature, TargetPose, AssignedRobot, NextSequence, FreshKey, Proper, Sendable;
    JudgeExactly(s, d, config);
  }

  lemma CancelNames(s: DomainState, c: CancelInput, config: DomainConfig)
    requires KeyedById(s)
    ensures var v := JudgeCancel(s, c, config);
            v.CancelAccept? ==> c.missionId in s.missions && v.mission.missionId == c.missionId
  {
    hide CancelSignature, CancelRefusal;
  }

  lemma HandshakeNames(s: DomainState, h: HandshakeReport, at: Time)
    requires KeyedById(s)
    ensures var mission, outcome := ReconciledMission(s, h, at), DecideReconciliation(s, h).outcome;
            && (mission.Some? <==> Concerned(s, h).Some?)
            && (mission.Some? ==>
                  && mission.value.missionId == Concerned(s, h).value
                  && mission.value.lifecycle
                     == (match outcome
                         case ResumeRunning => RUNNING
                         case MarkSucceeded => SUCCEEDED
                         case MarkFailed => FAILED
                         case ManualReview => MANUAL_REVIEW))
  {
    assert !ReportsKnown(s, h) ==> DecideReconciliation(s, h).outcome.ManualReview?;
    hide DecideReconciliation;
  }

  /******* Robots *******/

  /** What the gates and the reconciliation look at in a robot. */
  datatype RobotView = RobotView(connection: Connection, mission: Option<Id>, seen: nat)

  function ViewOf(s: DomainState, r: Id): Option<RobotView> {
    if r in s.robots then
      Some(RobotView(s.robots[r].connectionState, s.robots[r].activeMissionId, s.robots[r].lastSeenCommandSequence))
    else None
  }

  /** The view of robot `r` after an input, in terms of the state before it. */
  function ViewAfter(s: DomainState, i: Input, r: Id, config: DomainConfig): Option<RobotView> {
    var before := ViewOf(s, r);
    var mission := if before.Some? then before.value.mission else None;
    var seen := if before.Some? then before.value.seen else 0;
    match i
    case DispatchRequest(d) =>
      if d.robotId == r && Acceptable(s, d, config) then
        Some(RobotView(if before.Some? then before.value.connection else ONLINE, Some(d.missionId), seen))
      else before
    case CommandAck(ack) =>
      if Counts(s, ack) && s.commands[ack.commandId].robotId == r then
        var goesOn := (ack.status.Accepted? || ack.status.Duplicate?)
                      && !s.commands[ack.commandId].commandType.CancelMission?;
        Some(RobotView(ONLINE, if goesOn || before.None? then Some(s.commands[ack.commandId].missionId) else None,
                       Max(seen, ack.lastSeenCommandSequence)))
      else before
    case RobotTelemetry(t) =>
      if t.robotId == r && t.eventId !in s.processedEventIds then
        Some(RobotView(t.connectionState, t.currentMissionId.OrElse(mission), Max(seen, t.lastSeenCommandSequence)))
      else before
    case FreshnessCheck(f) =>
      if f.robotId == r && before.Some? then
        Some(before.value.(connection := Deserved(s.robots[r], f.now, config)))
      else before
    case ReconnectStarted(c) =>
      if c.robotId == r && before.Some? then Some(before.value.(connection := RECONNECTING)) else before
    case ReconnectHandshake(h, now, correlationId) =>
      if h.robotId == r && h.edgeSessionId !in s.processedSessionIds then
        Some(RobotView(
          if Objection(s, h).Some? then DEGRADED else ONLINE,
          if Concerned(s, h).None? then mission else if Resumes(s, h) then Concerned(s, h) else None,
          Max(seen, h.lastSeenCommandSequence)))
      else before
    case EdgeConnected(robotId, hello, at) =>
      if robotId == r then
        var claimed := if hello.Some? then hello.value.lastSeenCommandSequence.Or(0) else 0;
        Some(RobotView(ONLINE, mission, Max(seen, claimed)))
      else before
    case _ => before
  }

  /** Every robot, known or not, has exactly this view after every input. */
  lemma ViewExact(s: DomainState, i: Input, r: Id, config: DomainConfig)
    requires KeyedById(s)
    ensures ViewOf(Step(s, i, config), r) == ViewAfter(s, i, r, config)
  {
    StepPuts(s, i, config);
    hide Step;
    ViewByChanges(s, i, r, config);
    hide StepChanges, ViewAfter;
  }

  lemma ViewByChanges(s: DomainState, i: Input, r: Id, config: DomainConfig)
    requires KeyedById(s)
    ensures var ch := StepChanges(s, i, config);
            ViewAfter(s, i, r, config)
            == if ch.robot.Some? && ch.robot.value.robotId == r then
                 Some(RobotView(ch.robot.value.connectionState, ch.robot.value.activeMissionId,
                                ch.robot.value.lastSeenCommandSequence))
               else ViewOf(s, r)
  {
    if i.DispatchRequest? || i.CommandAck? {
      AssigningViews(s, i, r, config);
    } else {
      hide Judge, JudgeCancel, JudgeAck, DispatchSignature, CancelSignature, TargetPose, FreshConnection, IsActive;
      hide SawExpiredCommand, CancelSequence, ReasonPayload, LifecycleFromAck, DispatchChanges, AckChanges, Concerned;
      hide HandshakeChanges, CurrentActive, WithStatus, KeyedById, Objection, Deserved, DecideReconciliation;
      match i
      case ReconnectHandshake(h, now, correlationId) =>
        if h.edgeSessionId in s.processedSessionIds {
          RepeatedHandshake(s, h, now);
        } else {
          HandshakeExactly(s, h);
          HandshakeViews(s, h, now);
        }
      case FreshnessCheck(f) =>
        StoredRobotId(s, r);
        FreshnessExactly(s, f, config);
      case ReconnectStarted(c) => StoredRobotId(s, r);
      case EdgeConnected(robotId, hello, at) => StoredRobotId(s, r);
      case _ =>
    }
  }

  lemma StoredRobotId(s: DomainState, r: Id)
    requires KeyedById(s)
    ensures r in s.robots ==> s.robots[r].robotId == r
  {
  }

  lemma RepeatedHandshake(s: DomainState, h: HandshakeReport, now: Option<Time>)
    requires h.edgeSessionId in s.processedSessionIds
    ensures HandshakeChanges(s, h, now) == NO_CHANGES
  {
  }

  /** The two inputs that point a robot at a mission of the platform's choice. */
  lemma AssigningViews(s: DomainState, i: Input, r: Id, config: DomainConfig)
    requires KeyedById(s) && (i.DispatchRequest? || i.CommandAck?)
    ensures var ch := StepChanges(s, i, config);
            ViewAfter(s, i, r, config)
            == if ch.robot.Some? && ch.robot.value.robotId == r then
                 Some(RobotView(ch.robot.value.connectionState, ch.robot.value.activeMissionId,
                                ch.robot.value.lastSeenCommandSequence))
               else ViewOf(s, r)
  {
    hide Judge, JudgeAck, DispatchSignature, TargetPose, NextSequence, Acceptable, Stale;
    match i
    case DispatchRequest(d) => JudgeExactly(s, d, config);
    case CommandAck(ack) => JudgeAckExactly(s, ack);
    case _ =>
  }

  lemma HandshakeViews(s: DomainState, h: HandshakeReport, now: Option<Time>)
    requires KeyedById(s) && h.edgeSessionId !in s.processedSessionIds
    ensures var robot, outcome := HandshakeChanges(s, h, now).robot, DecideReconciliation(s, h).outcome;
            var existing := s.RobotOf(h.robotId);
            && robot.Some? && robot.value.robotId == h.robotId
            && robot.value.connectionState == (if outcome.ManualReview? then DEGRADED else ONLINE)
            && robot.value.activeMissionId
               == (if Concerned(s, h).None? then (if existing.Some? then existing.value.activeMissionId else None)
                   else if outcome.ResumeRunning? then Concerned(s, h) else None)
            && robot.value.lastSeenCommandSequence
               == Max(if existing.Some? then existing.value.lastSeenCommandSequence else 0, h.lastSeenCommandSequence)
  {
    HandshakeNames(s, h, now.Or(h.connectedAt));
    hide DecideReconciliation, ReconciledMission, Concerned;
  }

  /******* Lifecycles over whole runs *******/

  /** A command of the mission is stored; where asked, one that cancels it. */
  ghost predicate Commanded(s: DomainState, m: Id, cancels: bool) {
    exists c :: c in s.commands && s.commands[c].missionId == m
                && (cancels ==> s.commands[c].commandType.CancelMission?)
  }

  /**
   What the lifecycle of a stored mission says: it is never one of the four that the protocol names but no reducer
   writes; a mission that is being cancelled or has been has a cancel command of its own, and one that waits for
   an acknowledgement or has waited in vain has a command.
   */
  ghost predicate Earned(s: DomainState, m: Id)
    requires m in s.missions
  {
    var l := s.missions[m].lifecycle;
    && !(l.CREATED? || l.VALIDATED? || l.ASSIGNED? || l.ACKNOWLEDGED?)
    && (l.CANCEL_REQUESTED? || l.CANCELLED? ==> Commanded(s, m, true))
    && (l.DISPATCHED? || l.TIMED_OUT? ==> Commanded(s, m, false))
  }

  ghost predicate AllEarned(s: DomainState) {
    forall m | m in s.missions :: Earned(s, m)
  }

  lemma CommandedAfter(s: DomainState, i: Input, m: Id, cancels: bool, config: DomainConfig)
    requires KeyedById(s) && Commanded(s, m, cancels)
    ensures Commanded(Step(s, i, config), m, cancels)
  {
    hide Step;
    StepKeepsCommands(s, i, config);
    var c :| c in s.commands && s.commands[c].missionId == m
             && (cancels ==> s.commands[c].commandType.CancelMission?);
    assert c in Step(s, i, config).commands;
  }

  lemma DispatchCommands(s: DomainState, d: DispatchInput, config: DomainConfig)
    requires Acceptable(s, d, config)
    ensures Commanded(Step(s, DispatchRequest(d), config), d.missionId, false)
  {
    hide Step, Judge, DispatchSignature, TargetPose, AssignedRobot, NextSequence, Acceptable;
    JudgeExactly(s, d, config);
    StepPuts(s, DispatchRequest(d), config);
    assert d.commandId in Step(s, DispatchRequest(d), config).commands;
  }

  lemma CancelCommands(s: DomainState, c: CancelInput, config: DomainConfig)
    requires KeyedById(s) && Cancellable(s, c, config)
    ensures Commanded(Step(s, CancelRequest(c), config), c.missionId, true)
  {
    hide Step, JudgeCancel, CancelSignature, ReasonPayload, CancelSequence, Cancellable;
    JudgeCancelExactly(s, c, config);
    StepPuts(s, CancelRequest(c), config);
    CancelNames(s, c, config);
    assert c.commandId in Step(s, CancelRequest(c), config).commands;
  }

  /** Where a lifecycle that needs a command comes from. */
  lemma Origins(s: DomainState, i: Input, m: Id, config: DomainConfig)
    ensures var before, after := LifecycleOf(s, m), LifecycleAfter(s, i, m, config);
            after.Some? && after != before ==>
              match after.value
              case DISPATCHED => i.DispatchRequest? && i.d.missionId == m && Acceptable(s, i.d, config)
              case CANCEL_REQUESTED =>
                i.CancelRequest? && i.c.missionId == m && Cancellable(s, i.c, config)
              case CANCELLED =>
                i.CommandAck? && Counts(s, i.ack) && s.commands[i.ack.commandId].missionId == m
                && s.commands[i.ack.commandId].commandType.CancelMission?
              case TIMED_OUT =>
                before == Some(DISPATCHED)
                || (i.CommandAck? && Counts(s, i.ack) && s.commands[i.ack.commandId].missionId == m)
              case CREATED => false
              case VALIDATED => false
              case ASSIGNED => false
              case ACKNOWLEDGED => false
              case _ => true
  {
    hide Proper, Sendable, FreshKey, Cancellable, Stale, Objection, Concerned;
    match i
    case DispatchRequest(d) =>
    case CancelRequest(c) =>
    case CommandAck(ack) =>
    case MissionTimeout(t) =>
    case RobotTelemetry(t) =>
    case ReconnectHandshake(h, now, correlationId) =>
    case _ =>
  }

  lemma StepEarns(s: DomainState, i: Input, m: Id, config: DomainConfig)
    requires KeyedById(s) && AllEarned(s) && m in Step(s, i, config).missions
    ensures Earned(Step(s, i, config), m)
  {
    hide Step, Commanded, LifecycleAfter, KeyedById, Acceptable, Cancellable, Stale;
    LifecycleExact(s, i, m, config);
    Origins(s, i, m, config);
    var n := Step(s, i, config);
    var l := n.missions[m].lifecycle;
    if m in s.missions {
      assert Earned(s, m);
      if Commanded(s, m, true) {
        CommandedAfter(s, i, m, true, config);
      }
      if Commanded(s, m, false) {
        CommandedAfter(s, i, m, false, config);
      }
    }
    if LifecycleOf(s, m) != Some(l) {
      match i
      case DispatchRequest(d) =>
        if l.DISPATCHED? {
          DispatchCommands(s, d, config);
        }
      case CancelRequest(c) =>
        if l.CANCEL_REQUESTED? {
          CancelCommands(s, c, config);
        }
      case CommandAck(ack) =>
        if l.CANCELLED? {
          AckCommands(s, ack);
          CommandedAfter(s, i, m, true, config);
        } else if l.TIMED_OUT? && LifecycleOf(s, m) != Some(DISPATCHED) {
          AckCommands(s, ack);
          CommandedAfter(s, i, m, false, config);
        }
      case _ =>
    }
  }

  /** An acknowledgement that counts names a stored command. */
  lemma AckCommands(s: DomainState, ack: Ack)
    requires Counts(s, ack)
    ensures var c := s.commands[ack.commandId];
            Commanded(s, c.missionId, false) && (c.commandType.CancelMission? ==> Commanded(s, c.missionId, true))
  {
    assert ack.commandId in s.commands;
  }

  lemma {:induction false} RunEarned(s: DomainState, inputs: seq<Input>, config: DomainConfig)
    requires KeyedById(s) && AllEarned(s)
    ensures AllEarned(Run(s, inputs, config))
    decreases |inputs|
  {
    hide Step, KeyedById, Earned;
    if inputs != [] {
      var n := Step(s, inputs[0], config);
      StepKeyed(s, inputs[0], config);
      forall m | m in n.missions ensures Earned(n, m) {
        StepEarns(s, inputs[0], m, config);
      }
      RunEarned(n, inputs[1..], config);
    }
  }

  /** The lifecycle of every mission in every reachable state is one that its stored commands explain. */
  lemma LifecyclesEarned(inputs: seq<Input>, config: DomainConfig, m: Id)
    requires m in Run(INITIAL_STATE, inputs, config).missions
    ensures Earned(Run(INITIAL_STATE, inputs, config), m)
  {
    InitiallyKeyed();
    assert AllEarned(INITIAL_STATE);
    hide Run, Earned;
    RunEarned(INITIAL_STATE, inputs, config);
  }
}
