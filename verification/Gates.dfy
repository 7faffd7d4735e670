/** What it takes to be accepted, and what that says of every command that is ever stored. */
module Gates {
  import opened Texts
  import opened FleetState
  import opened Dispatch
  import opened Cancel
  import opened Decisions
  import opened FleetRun

  /** The window in which a request may be dispatched, relative to its own times. */
  predicate InTime(issuedAt: Time, expiresAt: Time, now: Time, config: DomainConfig) {
    now < expiresAt && issuedAt < expiresAt <= issuedAt + config.maxCommandTtlMs
  }

  /** A robot a risky request may be sent to. */
  predicate Fit(robot: Robot, config: DomainConfig) {
    robot.connectionState.ONLINE?
    && (robot.batteryPercent.Some? ==> config.lowBatteryPercent <= robot.batteryPercent.value)
  }

  /** A dispatch is accepted if and only if every gate is open, and then its command is stored as requested. */
  lemma AcceptedExactly(s: DomainState, d: DispatchInput, config: DomainConfig)
    ensures Acceptable(s, d, config) <==> DispatchMissionCommand(s, d, config).result.DispatchAccepted?
    ensures Acceptable(s, d, config) ==>
              var n := DispatchMissionCommand(s, d, config).state;
              && d.commandId !in s.commands && n.commands.Keys == s.commands.Keys + {d.commandId}
              && var c := n.commands[d.commandId];
                 && c.commandType == d.commandType && c.missionId == d.missionId && c.robotId == d.robotId
                 && c.payload == d.payload && c.issuedAt == d.issuedAt && c.expiresAt == d.expiresAt
                 && c.safetyClass == d.safetyClass.Or(Normal) && (c.requiresAck <==> d.requiresAck != Some(false))
  {
    JudgeExactly(s, d, config);
    hide Judge, FreshKey, Sendable, ValidPayload, DispatchSignature, TargetPose, RejectedMission, NextSequence;
    hide RejectionEvent, RejectionAudit, AssignedRobot;
  }

  /** A cancellation is accepted if and only if the mission is active and the request is new and in time. */
  lemma CancelAcceptedExactly(s: DomainState, c: CancelInput, config: DomainConfig)
    ensures RequestMissionCancellation(s, c, config).result.CancelAccepted? <==>
              && ActiveIn(s, c.missionId) && c.commandId !in s.commands
              && InTime(c.issuedAt, c.expiresAt, c.now, config)
              && FreshKey(s, c.idempotencyKey, CancelSignature(c))
  {
    JudgeCancelExactly(s, c, config);
    hide JudgeCancel, CancelSignature, CancelSequence, ReasonPayload, IsActive, FreshKey;
  }

  /******* Every stored command has passed its gates *******/

  /** The clock of the request. */
  function NowOf(i: Input): Time {
    match i
    case DispatchRequest(d) => d.now
    case CancelRequest(c) => c.now
    case _ => 0
  }

  /** The robot works on no other active mission and is not being reconciled. */
  predicate FreeToTake(s: DomainState, c: Command) {
    c.robotId in s.robots ==>
      var robot := s.robots[c.robotId];
      && !robot.connectionState.RECONNECTING?
      && (robot.activeMissionId.Some? && ActiveIn(s, robot.activeMissionId.value) ==>
            robot.activeMissionId.value == c.missionId)
  }

  /**
   What the gates promise of a command at the moment at which it is issued: it is new and within its window; if it
   is risky its robot is online with enough battery; and it either is an allowed command with a valid payload for a
   free robot, or it cancels a mission that is active.
   */
  predicate PassedGates(s: DomainState, c: Command, now: Time, config: DomainConfig) {
    && c.commandId !in s.commands && InTime(c.issuedAt, c.expiresAt, now, config)
    && (NeedsFitRobot(c.commandType, Some(c.safetyClass)) ==> c.robotId in s.robots && Fit(s.robots[c.robotId], config))
    && ((c.commandType in config.allowedCommandTypes && ValidPayload(c.commandType, c.payload) && FreeToTake(s, c))
        || (c.commandType.CancelMission? && ActiveIn(s, c.missionId) && s.missions[c.missionId].robotId == c.robotId))
  }

  lemma DispatchPasses(s: DomainState, d: DispatchInput, config: DomainConfig)
    requires Judge(s, d, config).Accept?
    ensures PassedGates(s, DispatchedCommand(d, NextSequence(s, d.robotId)), d.now, config)
  {
    hide Judge, NextSequence, ValidPayload, DispatchSignature, TargetPose, FreshKey;
    JudgeExactly(s, d, config);
  }

  lemma CancelPasses(s: DomainState, c: CancelInput, config: DomainConfig)
    requires KeyedById(s) && JudgeCancel(s, c, config).CancelAccept?
    ensures c.missionId in s.missions
    ensures PassedGates(s, CancelCommand(c, s.missions[c.missionId], CancelSequence(s, s.missions[c.missionId])), c.now,
                        config)
  {
    hide JudgeCancel, CancelSequence, CancelSignature, ReasonPayload, IsActive, FreshKey, ValidPayload;
    JudgeCancelExactly(s, c, config);
  }

  /** Whatever a step adds to the commands has just passed the gates. */
  lemma StepPasses(s: DomainState, i: Input, config: DomainConfig, id: Id)
    requires KeyedById(s) && id in Step(s, i, config).commands && id !in s.commands
    ensures PassedGates(s, Step(s, i, config).commands[id], NowOf(i), config)
  {
    hide Step, PassedGates, Judge, JudgeCancel, NextSequence, CancelSequence, ReasonPayload, AssignedRobot;
    hide DispatchSignature, CancelSignature, TargetPose;
    StepPuts(s, i, config);
    match i
    case DispatchRequest(d) =>
      assert Judge(s, d, config).Accept?;
      DispatchPasses(s, d, config);
    case CancelRequest(c) =>
      assert JudgeCancel(s, c, config).CancelAccept?;
      CancelPasses(s, c, config);
    case _ =>
  }

  /** At input `k` of the run the command passes the gates. */
  ghost predicate PassedAt(inputs: seq<Input>, k: nat, c: Command, config: DomainConfig)
    requires k < |inputs|
  {
    PassedGates(Run(INITIAL_STATE, inputs[..k], config), c, NowOf(inputs[k]), config)
  }

  /** Every command that is ever stored passed its gates at the input that issued it. */
  lemma {:induction false} EveryCommandPassed(inputs: seq<Input>, config: DomainConfig, id: Id)
    requires id in Run(INITIAL_STATE, inputs, config).commands
    ensures exists k: nat ::
              k < |inputs| && PassedAt(inputs, k, Run(INITIAL_STATE, inputs, config).commands[id], config)
    decreases |inputs|
  {
    hide Step, PassedGates, KeyedById;
    if inputs != [] {
      var front, last := inputs[..|inputs| - 1], inputs[|inputs| - 1];
      var s, n := Run(INITIAL_STATE, front, config), Run(INITIAL_STATE, inputs, config);
      assert inputs == front + [last];
      RunAppend(INITIAL_STATE, front, [last], config);
      RunOne(s, last, config);
      RunKeyed(front, config);
      hide Run;
      if id in s.commands {
        StepKeepsCommands(s, last, config);
        EveryCommandPassed(front, config, id);
        var k: nat :| k < |front| && PassedAt(front, k, s.commands[id], config);
        assert inputs[..k] == front[..k];
        assert PassedAt(inputs, k, n.commands[id], config);
      } else {
        StepPasses(s, last, config, id);
        assert PassedAt(inputs, |front|, n.commands[id], config);
      }
    }
  }
}
