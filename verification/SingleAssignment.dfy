/** Single assignment: which inputs keep every active mission under its robot's pointer, and runs of those. */
module SingleAssignment {
  import opened Texts
  import opened FleetState
  import opened Dispatch
  import opened Cancel
  import opened Acknowledge
  import opened Telemetry
  import opened Reconnect
  import opened Decisions
  import opened FleetRun

  predicate PointsAt(s: DomainState, robotId: Id, m: Id) {
    robotId in s.robots && s.robots[robotId].activeMissionId == Some(m)
  }

  /** Every active mission is the one its robot points at. */
  ghost predicate SingleAssignment(s: DomainState) {
    forall m | ActiveIn(s, m) :: PointsAt(s, s.missions[m].robotId, m)
  }

  /** So a robot never owns two active missions. */
  lemma AtMostOneActive(s: DomainState, a: Id, b: Id)
    requires SingleAssignment(s)
    requires ActiveIn(s, a) && ActiveIn(s, b) && s.missions[a].robotId == s.missions[b].robotId
    ensures a == b
  {
    assert PointsAt(s, s.missions[a].robotId, a) && PointsAt(s, s.missions[b].robotId, b);
  }

  /** The robot points at no active mission of its own, except possibly `m`. */
  predicate FreeFor(s: DomainState, robotId: Id, m: Id) {
    robotId in s.robots ==>
      var current := s.robots[robotId].activeMissionId;
      current.Some? && ActiveIn(s, current.value) && s.missions[current.value].robotId == robotId ==>
        current.value == m
  }

  /**
   What an input may name without breaking the assignment. Only messages from the edge are constrained: the
   mission they put under the robot's pointer must be the robot's own active one if it has one, and a mission
   they make active must belong to that robot or already be its robot's.
   */
  predicate NamesOwnMission(s: DomainState, i: Input) {
    match i
    case CommandAck(ack) =>
      Counts(s, ack) ==>
        var c := s.commands[ack.commandId];
        && FreeFor(s, c.robotId, c.missionId)
        && ((ack.status.Accepted? || ack.status.Duplicate?) && !c.commandType.CancelMission? ==>
              s.missions[c.missionId].robotId == c.robotId || PointsAt(s, s.missions[c.missionId].robotId, c.missionId))
    case RobotTelemetry(t) =>
      t.eventId !in s.processedEventIds && t.currentMissionId.Some? ==>
        FreeFor(s, t.robotId, t.currentMissionId.value)
    case ReconnectHandshake(h, now, correlationId) =>
      h.edgeSessionId !in s.processedSessionIds && ReportsKnown(s, h) ==>
        var m := h.reportedMissionId.value;
        && FreeFor(s, h.robotId, m)
        && (Resumes(s, h) ==> s.missions[m].robotId == h.robotId || PointsAt(s, s.missions[m].robotId, m))
    case _ => true
  }

  /** The two snapshots a step writes, judged against the state before it. */
  ghost predicate WritesAssigned(s: DomainState, ch: Changes) {
    && (ch.mission.Some? && IsActive(ch.mission.value.lifecycle) ==>
          if ch.robot.Some? && ch.robot.value.robotId == ch.mission.value.robotId then
            ch.robot.value.activeMissionId == Some(ch.mission.value.missionId)
          else PointsAt(s, ch.mission.value.robotId, ch.mission.value.missionId))
    && (ch.robot.Some? && ch.robot.value.robotId in s.robots ==>
          forall m | ActiveIn(s, m) && s.missions[m].robotId == ch.robot.value.robotId
                     && !(ch.mission.Some? && ch.mission.value.missionId == m) ::
            ch.robot.value.activeMissionId == Some(m))
  }

  lemma WritesDecide(s: DomainState, ch: Changes, n: DomainState)
    requires KeyedById(s) && SingleAssignment(s)
    requires n.missions == Put(s, ch).missions && n.robots == Put(s, ch).robots
    ensures SingleAssignment(n) <==> WritesAssigned(s, ch)
  {
    if SingleAssignment(n) {
      forall m | ActiveIn(s, m) && !(ch.mission.Some? && ch.mission.value.missionId == m)
        ensures PointsAt(n, s.missions[m].robotId, m)
      {
        assert ActiveIn(n, m);
      }
      if ch.mission.Some? && IsActive(ch.mission.value.lifecycle) {
        assert ActiveIn(n, ch.mission.value.missionId);
      }
    }
    if WritesAssigned(s, ch) {
      forall m | ActiveIn(n, m) ensures PointsAt(n, n.missions[m].robotId, m) {
        if !(ch.mission.Some? && ch.mission.value.missionId == m) {
          assert ActiveIn(s, m) && PointsAt(s, s.missions[m].robotId, m);
        }
      }
    }
  }

  /** A snapshot that keeps its robot's pointer, with a mission that keeps its robot and was active before. */
  lemma KeepingPointers(s: DomainState, ch: Changes)
    requires KeyedById(s) && SingleAssignment(s)
    requires ch.robot.Some? && ch.robot.value.robotId in s.robots ==>
               ch.robot.value.activeMissionId == s.robots[ch.robot.value.robotId].activeMissionId
    requires ch.mission.Some? && IsActive(ch.mission.value.lifecycle) ==>
               && ActiveIn(s, ch.mission.value.missionId)
               && s.missions[ch.mission.value.missionId].robotId == ch.mission.value.robotId
    ensures WritesAssigned(s, ch)
  {
    hide IsActive;
    if ch.mission.Some? && IsActive(ch.mission.value.lifecycle) {
      assert PointsAt(s, ch.mission.value.robotId, ch.mission.value.missionId);
    }
    if ch.robot.Some? && ch.robot.value.robotId in s.robots {
      forall m | ActiveIn(s, m) && s.missions[m].robotId == ch.robot.value.robotId
        ensures ch.robot.value.activeMissionId == Some(m)
      {
        assert PointsAt(s, s.missions[m].robotId, m);
      }
    }
  }

  /** The active missions of a robot that is free for `m` are at most `m`. */
  lemma FreeForMeans(s: DomainState, r: Id, m: Id)
    requires SingleAssignment(s)
    ensures FreeFor(s, r, m) <==> forall x | ActiveIn(s, x) && s.missions[x].robotId == r :: x == m
  {
    forall x | ActiveIn(s, x) && s.missions[x].robotId == r ensures PointsAt(s, r, x) {
      assert PointsAt(s, s.missions[x].robotId, x);
    }
  }

  /** A snapshot that points its robot at mission `m` or at nothing, beside a rewrite of `m` itself. */
  lemma Repointing(s: DomainState, ch: Changes, r: Id, m: Id)
    requires KeyedById(s) && SingleAssignment(s)
    requires ch.robot.Some? && ch.robot.value.robotId == r
    requires ch.mission.Some? ==> ch.mission.value.missionId == m
    requires ch.mission.Some? && IsActive(ch.mission.value.lifecycle) ==> ch.robot.value.activeMissionId == Some(m)
    requires ch.robot.value.activeMissionId == Some(m) || (ch.mission.Some? && ch.robot.value.activeMissionId == None)
    ensures WritesAssigned(s, ch) <==>
              && FreeFor(s, r, m)
              && (ch.mission.Some? && IsActive(ch.mission.value.lifecycle) ==>
                    ch.mission.value.robotId == r || PointsAt(s, ch.mission.value.robotId, m))
  {
    hide IsActive;
    FreeForMeans(s, r, m);
    assert r !in s.robots ==> forall x | ActiveIn(s, x) :: s.missions[x].robotId != r by {
      forall x | ActiveIn(s, x) ensures s.missions[x].robotId in s.robots {
        assert PointsAt(s, s.missions[x].robotId, x);
      }
    }
  }

  lemma DispatchAssigns(s: DomainState, d: DispatchInput, config: DomainConfig)
    requires KeyedById(s) && SingleAssignment(s)
    ensures WritesAssigned(s, DispatchChanges(s, d, config))
  {
    hide DispatchSignature, TargetPose, Judge, FreshKey, Proper;
    JudgeExactly(s, d, config);
    var ch := DispatchChanges(s, d, config);
    if Acceptable(s, d, config) {
      assert FreeFor(s, d.robotId, d.missionId);
      hide FreeFor;
      Repointing(s, ch, d.robotId, d.missionId);
    } else {
      KeepingPointers(s, ch);
    }
  }

  lemma AckAssigns(s: DomainState, ack: Ack, config: DomainConfig)
    requires KeyedById(s) && SingleAssignment(s)
    ensures WritesAssigned(s, AckChanges(s, ack)) <==> NamesOwnMission(s, CommandAck(ack))
  {
    JudgeAckExactly(s, ack);
    hide JudgeAck, Stale, FreeFor, PointsAt;
    var ch := AckChanges(s, ack);
    if Counts(s, ack) {
      Repointing(s, ch, s.commands[ack.commandId].robotId, s.commands[ack.commandId].missionId);
    }
    hide WritesAssigned;
    if !Counts(s, ack) {
      KeepingPointers(s, ch);
    }
  }

  lemma TelemetryAssigns(s: DomainState, t: TelemetryReport)
    requires KeyedById(s) && SingleAssignment(s)
    ensures WritesAssigned(s, TelemetryChanges(s, t)) <==> NamesOwnMission(s, RobotTelemetry(t))
  {
    var ch := TelemetryChanges(s, t);
    hide FreeFor, SingleAssignment, PointsAt, WritesAssigned;
    if t.eventId in s.processedEventIds || t.currentMissionId.None? {
      KeepingPointers(s, ch);
    } else {
      var m := t.currentMissionId.value;
      assert ch.mission.Some? ==> ActiveIn(s, m) && ch.mission.value.robotId == s.missions[m].robotId;
      assert ch.mission.Some? ==> PointsAt(s, s.missions[m].robotId, m) by {
        if ch.mission.Some? {
          PointedAt(s, m);
        }
      }
      hide IsActive;
      Repointing(s, ch, t.robotId, m);
    }
  }

  lemma PointedAt(s: DomainState, m: Id)
    requires SingleAssignment(s) && ActiveIn(s, m)
    ensures PointsAt(s, s.missions[m].robotId, m)
  {
  }

  lemma ReconciledPointer(existing: Option<Robot>, h: HandshakeReport, outcome: Outcome, mission: Option<Mission>,
                          at: Time)
    ensures var robot := ReconciledRobot(existing, h, outcome, mission, at);
            && robot.robotId == h.robotId
            && (mission.Some? ==>
                  robot.activeMissionId
                  == if IsActive(mission.value.lifecycle) then Some(mission.value.missionId) else None)
            && (mission.None? && existing.Some? ==> robot.activeMissionId == existing.value.activeMissionId)
  {
  }

  /** The handshake rewrites mission `before` and points the robot at the result while it is active. */
  lemma HandshakeOf(s: DomainState, h: HandshakeReport, now: Option<Time>, before: Mission)
    requires KeyedById(s) && SingleAssignment(s) && h.edgeSessionId !in s.processedSessionIds
    requires var decision, at := DecideReconciliation(s, h), now.Or(h.connectedAt);
             ReconciledMission(s, h, at) == Some(ApplyReconciliation(before, decision, at))
    ensures WritesAssigned(s, HandshakeChanges(s, h, now)) <==>
              && FreeFor(s, h.robotId, before.missionId)
              && (DecideReconciliation(s, h).outcome.ResumeRunning? ==>
                    before.robotId == h.robotId || PointsAt(s, before.robotId, before.missionId))
  {
    var decision, at := DecideReconciliation(s, h), now.Or(h.connectedAt);
    var mission := ReconciledMission(s, h, at);
    hide DecideReconciliation, ReconciledMission, SingleAssignment, WritesAssigned, FreeFor, PointsAt, KeyedById;
    ReconciledPointer(s.RobotOf(h.robotId), h, decision.outcome, mission, at);
    hide ReconciledRobot;
    assert IsActive(mission.value.lifecycle) <==> decision.outcome.ResumeRunning?;
    hide IsActive;
    Repointing(s, HandshakeChanges(s, h, now), h.robotId, before.missionId);
  }

  lemma HandshakeAssigns(s: DomainState, h: HandshakeReport, now: Option<Time>, correlationId: Id)
    requires KeyedById(s) && SingleAssignment(s)
    ensures WritesAssigned(s, HandshakeChanges(s, h, now))
            <==> NamesOwnMission(s, ReconnectHandshake(h, now, correlationId))
  {
    var reported, current := s.MissionOf(h.reportedMissionId), CurrentMission(s, h.robotId);
    hide SingleAssignment, WritesAssigned, SawExpiredCommand, IsActive, Resumes;
    HandshakeExactly(s, h);
    if h.edgeSessionId !in s.processedSessionIds && reported.Some? {
      HandshakeOf(s, h, now, reported.value);
    } else if h.edgeSessionId !in s.processedSessionIds && current.Some? {
      CurrentLeavesFree(s, h.robotId);
      HandshakeOf(s, h, now, current.value);
    } else {
      hide PointsAt, FreeFor, DecideReconciliation;
      KeepingPointers(s, HandshakeChanges(s, h, now));
    }
  }

  lemma CurrentLeavesFree(s: DomainState, r: Id)
    requires KeyedById(s) && CurrentMission(s, r).Some?
    ensures FreeFor(s, r, CurrentMission(s, r).value.missionId)
  {
  }

  lemma OthersAssign(s: DomainState, i: Input, config: DomainConfig)
    requires KeyedById(s) && SingleAssignment(s)
    requires i.CancelRequest? || i.MissionTimeout? || i.FreshnessCheck? || i.ReconnectStarted? || i.EdgeConnected?
    ensures WritesAssigned(s, StepChanges(s, i, config))
  {
    hide SingleAssignment, WritesAssigned, JudgeCancel, FreshConnection, CancelSignature, ReasonPayload, CancelSequence;
    if i.CancelRequest? {
      CancelsActive(s, i.c, config);
    }
    KeepingPointers(s, StepChanges(s, i, config));
  }

  lemma CancelsActive(s: DomainState, c: CancelInput, config: DomainConfig)
    ensures var v := JudgeCancel(s, c, config);
            v.CancelAccept? ==> ActiveIn(s, c.missionId) && v.mission == s.missions[c.missionId]
  {
    hide CancelSignature;
  }

  /** A step keeps single assignment if and only if its input names the robot's own mission. */
  lemma AssignmentExact(s: DomainState, i: Input, config: DomainConfig)
    requires KeyedById(s) && SingleAssignment(s)
    ensures SingleAssignment(Step(s, i, config)) <==> NamesOwnMission(s, i)
  {
    StepPuts(s, i, config);
    hide Step, SingleAssignment, WritesAssigned, Put, KeyedById;
    WritesDecide(s, StepChanges(s, i, config), Step(s, i, config));
    match i
    case DispatchRequest(d) => DispatchAssigns(s, d, config);
    case CommandAck(ack) => AckAssigns(s, ack, config);
    case RobotTelemetry(t) => TelemetryAssigns(s, t);
    case ReconnectHandshake(h, now, correlationId) => HandshakeAssigns(s, h, now, correlationId);
    case _ => OthersAssign(s, i, config);
  }

  predicate RunNamesOwn(s: DomainState, inputs: seq<Input>, config: DomainConfig)
    decreases |inputs|
  {
    inputs == []
    || (NamesOwnMission(s, inputs[0]) && RunNamesOwn(Step(s, inputs[0], config), inputs[1..], config))
  }

  lemma {:induction false} RunAssignment(s: DomainState, inputs: seq<Input>, config: DomainConfig)
    requires KeyedById(s) && SingleAssignment(s) && RunNamesOwn(s, inputs, config)
    ensures SingleAssignment(Run(s, inputs, config))
    decreases |inputs|
  {
    hide Step, KeyedById, SingleAssignment, NamesOwnMission;
    if inputs != [] {
      StepKeyed(s, inputs[0], config);
      AssignmentExact(s, inputs[0], config);
      RunAssignment(Step(s, inputs[0], config), inputs[1..], config);
    }
  }

  /** Over every run whose edge messages name their robot's own mission, no robot owns two active missions. */
  lemma NeverTwoActive(inputs: seq<Input>, config: DomainConfig, a: Id, b: Id)
    requires RunNamesOwn(INITIAL_STATE, inputs, config)
    requires var n := Run(INITIAL_STATE, inputs, config);
             ActiveIn(n, a) && ActiveIn(n, b) && n.missions[a].robotId == n.missions[b].robotId
    ensures a == b
    ensures var n := Run(INITIAL_STATE, inputs, config);
            n.missions[a].robotId in n.robots && n.robots[n.missions[a].robotId].activeMissionId == Some(a)
  {
    assert KeyedById(INITIAL_STATE) && SingleAssignment(INITIAL_STATE);
    RunAssignment(INITIAL_STATE, inputs, config);
    var n := Run(INITIAL_STATE, inputs, config);
    hide Run;
    AtMostOneActive(n, a, b);
    assert PointsAt(n, n.missions[a].robotId, a);
  }
}
