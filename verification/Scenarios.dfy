/** Runs from the empty state that end where an operator would not expect it. */
module Scenarios {
  import opened Texts
  import opened Json
  import opened FleetState
  import opened Dispatch
  import opened Cancel
  import opened Acknowledge
  import opened Reconnect
  import opened FleetRun
  import opened CancelFinality

  /******* Two active missions *******/

  const NO_PAYLOAD: JsonTree := JObject([])

  /** A plain request for robot `r` that uses `x` for all its ids. */
  function PauseRequest(x: Id, r: Id, at: Time): DispatchInput {
    DispatchInput(x, x, r, PauseMission, x, at, at + 1000, x, x, NO_PAYLOAD, at, None, None)
  }

  lemma PauseAccepted(s: DomainState, x: Id, r: Id, at: Time)
    requires x !in s.commands && x !in s.idempotencyRecords
    requires r in s.robots ==>
               && s.robots[r].robotId == r && s.robots[r].connectionState.ONLINE?
               && (s.robots[r].activeMissionId.Some? ==> !ActiveIn(s, s.robots[r].activeMissionId.value))
    ensures var d := PauseRequest(x, r, at);
            var n := Step(s, DispatchRequest(d), DEFAULT_CONFIG);
            && n.missions == s.missions[x := DispatchedMission(d, NextSequence(s, r))]
            && n.robots == s.robots[r := AssignedRobot(s.RobotOf(r), d)]
            && n.commands == s.commands[x := DispatchedCommand(d, NextSequence(s, r))]
            && n.idempotencyRecords.Keys == s.idempotencyRecords.Keys + {x}
            && n.nextSequence == s.nextSequence[r := NextSequence(s, r) + 1]
            && n.processedAckIds == s.processedAckIds && n.processedSessionIds == s.processedSessionIds
  {
    var d := PauseRequest(x, r, at);
    StepPuts(s, DispatchRequest(d), DEFAULT_CONFIG);
    hide Step, DispatchSignature, TargetPose;
    assert Judge(s, d, DEFAULT_CONFIG) == Accept;
    hide Judge;
  }

  /** Mission `a` of robot `r` was dispatched, expired and timed out; nothing else has happened. */
  ghost predicate FirstTimedOut(s: DomainState, r: Id, a: Id) {
    && s.missions.Keys == s.commands.Keys == s.idempotencyRecords.Keys == {a}
    && s.missions[a].missionId == a && s.missions[a].lastAcknowledgedCommandSequence == None && !ActiveIn(s, a)
    && s.commands[a].missionId == a && s.commands[a].robotId == r
    && r in s.robots && s.robots[r].robotId == r && s.robots[r].connectionState.ONLINE?
    && s.robots[r].activeMissionId == Some(a)
    && s.processedAckIds == []
  }

  lemma PauseTimesOut(s: DomainState, x: Id, now: Time)
    requires x in s.missions && s.missions[x].lifecycle.DISPATCHED? && s.missions[x].currentCommandId == Some(x)
    requires s.missions[x].missionId == x
    requires x in s.commands && s.commands[x].expiresAt <= now
    ensures var t := TimeoutInput(x, now, x);
            var n := Step(s, MissionTimeout(t), DEFAULT_CONFIG);
            && n.missions == s.missions[x := TimedOutMission(s.missions[x], t)]
            && n.robots == s.robots && n.commands == s.commands && n.idempotencyRecords == s.idempotencyRecords
            && n.processedAckIds == s.processedAckIds
  {
    var t := TimeoutInput(x, now, x);
    StepPuts(s, MissionTimeout(t), DEFAULT_CONFIG);
    hide Step;
    assert StepChanges(s, MissionTimeout(t), DEFAULT_CONFIG)
        == NO_CHANGES.(mission := Some(TimedOutMission(s.missions[x], t)));
    hide StepChanges;
  }

  lemma ReachTimeout(r: Id, a: Id)
    ensures var s1 := Step(INITIAL_STATE, DispatchRequest(PauseRequest(a, r, 0)), DEFAULT_CONFIG);
            FirstTimedOut(Step(s1, MissionTimeout(TimeoutInput(a, 1000, a)), DEFAULT_CONFIG), r, a)
  {
    hide Step, TargetPose;
    PauseAccepted(INITIAL_STATE, a, r, 0);
    PauseTimesOut(Step(INITIAL_STATE, DispatchRequest(PauseRequest(a, r, 0)), DEFAULT_CONFIG), a, 1000);
  }

  lemma FailedAckFreesRobot(s: DomainState, x: Id, r: Id, ack: Ack)
    requires ack.ackId !in s.processedAckIds && ack.commandId == x && ack.status.Failed?
    requires x in s.commands && s.commands[x].missionId == x && s.commands[x].robotId == r
    requires x in s.missions && s.missions[x].missionId == x && s.missions[x].lastAcknowledgedCommandSequence == None
    requires r in s.robots && s.robots[r].robotId == r
    ensures var n := Step(s, CommandAck(ack), DEFAULT_CONFIG);
            && n.missions.Keys == s.missions.Keys && !ActiveIn(n, x)
            && (forall y | y in s.missions && y != x :: n.missions[y] == s.missions[y])
            && n.robots == s.robots[r := n.robots[r]]
            && n.robots[r].robotId == r && n.robots[r].connectionState.ONLINE? && n.robots[r].activeMissionId == None
            && n.commands == s.commands && n.idempotencyRecords == s.idempotencyRecords
  {
    StepPuts(s, CommandAck(ack), DEFAULT_CONFIG);
    hide Step;
  }

  /** `a` has timed out and the robot works on `b`. */
  ghost predicate SecondMissionRuns(s: DomainState, r: Id, a: Id, b: Id) {
    && s.missions.Keys == s.commands.Keys == s.idempotencyRecords.Keys == {a, b}
    && s.missions[a].missionId == a && s.missions[a].lastAcknowledgedCommandSequence == None
    && s.commands[a].missionId == a && s.commands[a].robotId == r
    && ActiveIn(s, b) && s.missions[b].robotId == r
    && r in s.robots && s.robots[r].robotId == r && s.robots[r].connectionState.ONLINE?
    && s.processedAckIds == []
  }

  lemma ReachSecondMission(s: DomainState, r: Id, a: Id, b: Id)
    requires FirstTimedOut(s, r, a) && a != b
    ensures SecondMissionRuns(Step(s, DispatchRequest(PauseRequest(b, r, 1000)), DEFAULT_CONFIG), r, a, b)
  {
    hide Step, TargetPose;
    PauseAccepted(s, b, r, 1000);
  }

  lemma LateFailureSplits(s: DomainState, r: Id, a: Id, b: Id, c: Id, ack: Ack)
    requires SecondMissionRuns(s, r, a, b) && a != b && b != c && a != c
    requires ack.commandId == a && ack.status.Failed?
    ensures var n := Step(Step(s, CommandAck(ack), DEFAULT_CONFIG), DispatchRequest(PauseRequest(c, r, 1000)),
                          DEFAULT_CONFIG);
            && ActiveIn(n, b) && ActiveIn(n, c) && n.missions[b].robotId == r && n.missions[c].robotId == r
  {
    hide Step, TargetPose;
    FailedAckFreesRobot(s, a, r, ack);
    PauseAccepted(Step(s, CommandAck(ack), DEFAULT_CONFIG), c, r, 1000);
  }

  /**
   A late failure report for a mission that has timed out clears the pointer of a robot already working on the
   next mission, so a third dispatch is accepted and the robot owns two active missions.
   */
  lemma TwoActiveMissions(r: Id, a: Id, b: Id, c: Id, ack: Ack)
    requires a != b && b != c && a != c
    requires ack.commandId == a && ack.status.Failed?
    ensures var inputs := [
              DispatchRequest(PauseRequest(a, r, 0)), MissionTimeout(TimeoutInput(a, 1000, a)),
              DispatchRequest(PauseRequest(b, r, 1000)), CommandAck(ack),
              DispatchRequest(PauseRequest(c, r, 1000))];
            var n := Run(INITIAL_STATE, inputs, DEFAULT_CONFIG);
            && ActiveIn(n, b) && ActiveIn(n, c)
            && n.missions[b].robotId == r && n.missions[c].robotId == r
  {
    hide Step, Run, FirstTimedOut, SecondMissionRuns, PauseRequest;
    var i1, i2 := DispatchRequest(PauseRequest(a, r, 0)), MissionTimeout(TimeoutInput(a, 1000, a));
    var i3, i5 := DispatchRequest(PauseRequest(b, r, 1000)), DispatchRequest(PauseRequest(c, r, 1000));
    var s2 := Step(Step(INITIAL_STATE, i1, DEFAULT_CONFIG), i2, DEFAULT_CONFIG);
    ReachTimeout(r, a);
    ReachSecondMission(s2, r, a, b);
    LateFailureSplits(Step(s2, i3, DEFAULT_CONFIG), r, a, b, c, ack);
    FiveSteps(INITIAL_STATE, i1, i2, i3, CommandAck(ack), i5, DEFAULT_CONFIG);
  }

  lemma FiveSteps(s: DomainState, i1: Input, i2: Input, i3: Input, i4: Input, i5: Input, config: DomainConfig)
    ensures Run(s, [i1, i2, i3, i4, i5], config)
         == Step(Step(Step(Step(Step(s, i1, config), i2, config), i3, config), i4, config), i5, config)
  {
    hide Step;
    assert [i1, i2, i3, i4, i5] == [i1] + ([i2] + ([i3] + ([i4] + ([i5] + []))));
    RunFirst(s, i1, [i2] + ([i3] + ([i4] + ([i5] + []))), config);
    var s1 := Step(s, i1, config);
    RunFirst(s1, i2, [i3] + ([i4] + ([i5] + [])), config);
    var s2 := Step(s1, i2, config);
    RunFirst(s2, i3, [i4] + ([i5] + []), config);
    var s3 := Step(s2, i3, config);
    RunFirst(s3, i4, [i5] + [], config);
    RunFirst(Step(s3, i4, config), i5, [], config);
  }

  /******* A cancelled mission comes back *******/

  /** A plain cancellation of mission `m` that uses `k` for all its other ids. */
  function PlainCancel(m: Id, k: Id, at: Time): CancelInput {
    CancelInput(k, m, k, at, at + 1000, k, k, k, at)
  }

  /** Mission `m` of robot `r` was sent out with sequence 1; nothing else has happened. */
  ghost predicate SentOut(s: DomainState, r: Id, m: Id) {
    && s.missions.Keys == s.commands.Keys == s.idempotencyRecords.Keys == {m}
    && s.missions[m].missionId == m && s.missions[m].robotId == r && s.missions[m].lifecycle.DISPATCHED?
    && s.missions[m].lastAcknowledgedCommandSequence == None
    && s.nextSequence == map[r := 2]
    && s.robots.Keys == {r} && s.robots[r].robotId == r
    && s.processedAckIds == [] && s.processedSessionIds == []
  }

  lemma ReachSentOut(r: Id, m: Id)
    ensures SentOut(Step(INITIAL_STATE, DispatchRequest(PauseRequest(m, r, 0)), DEFAULT_CONFIG), r, m)
  {
    hide Step, TargetPose;
    PauseAccepted(INITIAL_STATE, m, r, 0);
  }

  /** Its cancellation `k` was sent out with sequence 2. */
  ghost predicate CancelSent(s: DomainState, r: Id, m: Id, k: Id) {
    && s.missions.Keys == {m} && s.missions[m].missionId == m && s.missions[m].robotId == r
    && s.missions[m].lastCommandSequence == Some(2) && s.missions[m].lastAcknowledgedCommandSequence == None
    && k in s.commands && s.commands[k].missionId == m && s.commands[k].robotId == r
    && s.commands[k].commandType.CancelMission?
    && s.robots.Keys == {r} && s.robots[r].robotId == r
    && s.processedAckIds == [] && s.processedSessionIds == []
  }

  lemma ReachCancelSent(s: DomainState, r: Id, m: Id, k: Id)
    requires SentOut(s, r, m) && k != m
    ensures CancelSent(Step(s, CancelRequest(PlainCancel(m, k, 10)), DEFAULT_CONFIG), r, m, k)
  {
    hide Step, CancelSignature, ReasonPayload;
    var c := PlainCancel(m, k, 10);
    StepPuts(s, CancelRequest(c), DEFAULT_CONFIG);
    assert JudgeCancel(s, c, DEFAULT_CONFIG) == CancelAccept(s.missions[m]);
    hide JudgeCancel;
  }

  /** The robot has carried out the cancellation and is free. */
  ghost predicate CancelDone(s: DomainState, r: Id, m: Id, k: Id) {
    && KeyedById(s)
    && m in s.missions && s.missions[m].lifecycle.CANCELLED? && s.missions[m].lastCommandSequence == Some(2)
    && s.missions[m].lastAcknowledgedCommandId == Some(k)
    && r in s.robots && s.robots[r].activeMissionId == None
    && s.processedSessionIds == []
  }

  lemma ReachCancelDone(s: DomainState, r: Id, m: Id, k: Id, ack: Ack)
    requires CancelSent(s, r, m, k) && KeyedById(s)
    requires ack.commandId == k && ack.status.Accepted?
    ensures CancelDone(Step(s, CommandAck(ack), DEFAULT_CONFIG), r, m, k)
  {
    hide Step;
    StepPuts(s, CommandAck(ack), DEFAULT_CONFIG);
    StepKeyed(s, CommandAck(ack), DEFAULT_CONFIG);
  }

  lemma ReachRevived(s: DomainState, r: Id, m: Id, k: Id, h: HandshakeReport, correlationId: Id)
    requires CancelDone(s, r, m, k) && h.robotId == r && h.reportedMissionId == Some(m)
    requires h.reportedLifecycle == Some(RUNNING)
    requires 2 <= h.lastSeenCommandSequence || h.lastAcknowledgedCommandId == Some(k)
    ensures ActiveIn(Step(s, ReconnectHandshake(h, None, correlationId), DEFAULT_CONFIG), m)
  {
    hide Step;
    var i := ReconnectHandshake(h, None, correlationId);
    assert Revives(s, i, m, DEFAULT_CONFIG);
    hide Revives, DecideReconciliation, KeyedById;
    RevivalExact(s, i, m, DEFAULT_CONFIG);
  }

  /**
   A mission is dispatched, cancelled, and reported as cancelled by its robot; then a handshake that still reports
   it as running, from a robot that has seen the cancellation, makes it active again.
   */
  lemma CancelledMissionReturns(r: Id, m: Id, k: Id, ack: Ack, h: HandshakeReport, correlationId: Id)
    requires k != m && ack.commandId == k && ack.status.Accepted?
    requires h.robotId == r && h.reportedMissionId == Some(m) && h.reportedLifecycle == Some(RUNNING)
    requires 2 <= h.lastSeenCommandSequence || h.lastAcknowledgedCommandId == Some(k)
    ensures var inputs := [
              DispatchRequest(PauseRequest(m, r, 0)), CancelRequest(PlainCancel(m, k, 10)), CommandAck(ack)];
            var s := Run(INITIAL_STATE, inputs, DEFAULT_CONFIG);
            && m in s.missions && s.missions[m].lifecycle.CANCELLED?
            && ActiveIn(Run(INITIAL_STATE, inputs + [ReconnectHandshake(h, None, correlationId)], DEFAULT_CONFIG), m)
  {
    hide Step, Run, SentOut, CancelSent, PauseRequest, PlainCancel, KeyedById, ActiveIn;
    var i1, i2, i3 := DispatchRequest(PauseRequest(m, r, 0)), CancelRequest(PlainCancel(m, k, 10)), CommandAck(ack);
    var i4 := ReconnectHandshake(h, None, correlationId);
    var s1 := Step(INITIAL_STATE, i1, DEFAULT_CONFIG);
    var s2 := Step(s1, i2, DEFAULT_CONFIG);
    var s3 := Step(s2, i3, DEFAULT_CONFIG);
    InitiallyKeyed();
    StepKeyed(INITIAL_STATE, i1, DEFAULT_CONFIG);
    StepKeyed(s1, i2, DEFAULT_CONFIG);
    ReachSentOut(r, m);
    ReachCancelSent(s1, r, m, k);
    ReachCancelDone(s2, r, m, k, ack);
    ReachRevived(s3, r, m, k, h, correlationId);
    ThreeSteps(INITIAL_STATE, i1, i2, i3, DEFAULT_CONFIG);
    RunAppend(INITIAL_STATE, [i1, i2, i3], [i4], DEFAULT_CONFIG);
    RunOne(s3, i4, DEFAULT_CONFIG);
  }

  lemma ThreeSteps(s: DomainState, i1: Input, i2: Input, i3: Input, config: DomainConfig)
    ensures Run(s, [i1, i2, i3], config) == Step(Step(Step(s, i1, config), i2, config), i3, config)
  {
    hide Step;
    assert [i1, i2, i3] == [i1] + ([i2] + ([i3] + []));
    RunFirst(s, i1, [i2] + ([i3] + []), config);
    var s1 := Step(s, i1, config);
    RunFirst(s1, i2, [i3] + [], config);
    RunFirst(Step(s1, i2, config), i3, [], config);
  }
}
