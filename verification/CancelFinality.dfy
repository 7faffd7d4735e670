/** Cancellation is final: which steps can revive an inactive mission, and runs in which none does. */
module CancelFinality {
  import opened Texts
  import opened FleetState
  import opened Dispatch
  import opened Cancel
  import opened Acknowledge
  import opened Telemetry
  import opened Reconnect
  import opened Decisions
  import opened FleetRun
  import opened Lifecycles
  import opened Sequences

  /******* Exactly which inputs revive a mission *******/

  /** A condition on the input before the step: one of the three ways back to an active mission. */
  predicate Revives(s: DomainState, i: Input, m: Id, config: DomainConfig) {
    match i
    case DispatchRequest(d) => d.missionId == m && Acceptable(s, d, config)
    case CommandAck(ack) =>
      && Counts(s, ack) && s.commands[ack.commandId].missionId == m
      && !s.commands[ack.commandId].commandType.CancelMission? && (ack.status.Accepted? || ack.status.Duplicate?)
    case ReconnectHandshake(h, now, correlationId) =>
      h.edgeSessionId !in s.processedSessionIds && h.reportedMissionId == Some(m) && Resumes(s, h)
    case _ => false
  }

  /** An inactive mission is active after a step if and only if the input revives it. */
  lemma RevivalExact(s: DomainState, i: Input, m: Id, config: DomainConfig)
    requires KeyedById(s) && m in s.missions && !IsActive(s.missions[m].lifecycle)
    ensures ActiveIn(Step(s, i, config), m) <==> Revives(s, i, m, config)
  {
    hide Step, FreshKey, Proper, Sendable, Stale, ReportsAnother, ClaimsExpired, LeavesGap, KeyedById, TimesOut;
    LifecycleExact(s, i, m, config);
  }

  lemma CancelNeedsActive(s: DomainState, i: Input, config: DomainConfig)
    ensures i.CancelRequest? ==>
              var v := JudgeCancel(s, i.c, config);
              v.CancelAccept? ==> ActiveIn(s, i.c.missionId) && v.mission == s.missions[i.c.missionId]
  {
    hide CancelSignature;
  }

  /******* Runs that follow the protocol *******/

  /** The dispatch is neither replayed nor refused as a conflict, so it writes its mission. */
  predicate WritesItsMission(s: DomainState, d: DispatchInput, config: DomainConfig) {
    FreshKey(s, d.idempotencyKey, DispatchSignature(d))
  }

  /** It is then refused or accepted. */
  lemma WritesExactly(s: DomainState, i: Input, config: DomainConfig)
    ensures i.DispatchRequest? ==>
              var v := Judge(s, i.d, config);
              && (WritesItsMission(s, i.d, config) <==> v.Accept? || v.Refuse?)
              && (v.Accept? <==> Acceptable(s, i.d, config))
  {
    hide Judge, Contradicted, Answered, Proper, Sendable;
    if i.DispatchRequest? {
      JudgeExactly(s, i.d, config);
    }
  }

  /** New dispatches use fresh mission ids. */
  predicate UsesNewMission(s: DomainState, i: Input, config: DomainConfig) {
    i.DispatchRequest? && WritesItsMission(s, i.d, config) ==> i.d.missionId !in s.missions
  }

  /** An acknowledgement carries the sequence of the command it names. */
  predicate EchoesSequence(s: DomainState, i: Input) {
    i.CommandAck? && i.ack.commandId in s.commands ==>
      i.ack.lastSeenCommandSequence == s.commands[i.ack.commandId].sequence
  }

  /** No handshake reports a mission that is already inactive. */
  predicate ReportsActive(s: DomainState, i: Input) {
    i.ReconnectHandshake? && i.handshake.reportedMissionId.Some?
    && i.handshake.reportedMissionId.value in s.missions ==>
      ActiveIn(s, i.handshake.reportedMissionId.value)
  }

  predicate Follows(s: DomainState, i: Input, config: DomainConfig) {
    UsesNewMission(s, i, config) && EchoesSequence(s, i) && ReportsActive(s, i)
  }

  predicate RunFollows(s: DomainState, inputs: seq<Input>, config: DomainConfig)
    decreases |inputs|
  {
    inputs == [] || (Follows(s, inputs[0], config) && RunFollows(Step(s, inputs[0], config), inputs[1..], config))
  }

  lemma {:induction false} RunFollowsSplit(s: DomainState, before: seq<Input>, after: seq<Input>,
                                           config: DomainConfig)
    requires RunFollows(s, before + after, config)
    ensures RunFollows(s, before, config)
    ensures RunFollows(Run(s, before, config), after, config)
    decreases |before|
  {
    hide Step, Follows;
    if before == [] {
      assert before + after == after;
    } else {
      assert (before + after)[1..] == before[1..] + after;
      RunFollowsSplit(Step(s, before[0], config), before[1..], after, config);
    }
  }

  /******* The order of a mission's commands *******/

  /** Every command belongs to a known mission of the same robot. */
  ghost predicate CommandsOwned(s: DomainState) {
    forall c | c in s.commands ::
      s.commands[c].missionId in s.missions && s.missions[s.commands[c].missionId].robotId == s.commands[c].robotId
  }

  /** Within a mission, cancellations come after everything else. */
  ghost predicate CancelsLast(s: DomainState) {
    forall x, y | x in s.commands && y in s.commands && s.commands[x].missionId == s.commands[y].missionId
                  && s.commands[y].commandType.CancelMission? && !s.commands[x].commandType.CancelMission? ::
      s.commands[x].sequence < s.commands[y].sequence
  }

  ghost predicate OrderInv(s: DomainState) {
    SequencesInv(s) && CommandsOwned(s) && CancelsLast(s)
  }

  /** What a step without a reused mission id writes: robots of known missions stay, commands are ordered. */
  lemma FollowingWrites(s: DomainState, i: Input, config: DomainConfig)
    requires KeyedById(s) && UsesNewMission(s, i, config)
    ensures var ch := StepChanges(s, i, config);
            && (ch.mission.Some? && ch.mission.value.missionId in s.missions ==>
                  ch.mission.value.robotId == s.missions[ch.mission.value.missionId].robotId)
            && (ch.command.Some? && !ch.command.value.commandType.CancelMission? ==>
                  ch.command.value.missionId !in s.missions)
            && (ch.command.Some? && ch.command.value.missionId in s.missions ==>
                  ch.command.value.robotId == s.missions[ch.command.value.missionId].robotId)
  {
    StepMissions(s, i, config);
    hide DispatchSignature, CancelSignature, TargetPose, PayloadIssues, AssignedRobot, AckedRobot, ReportedRobot;
    hide ReconciledRobot, DecideReconciliation, FreshConnection, DispatchRefusal, CancelRefusal, ReasonPayload;
  }

  lemma StepOrder(s: DomainState, i: Input, config: DomainConfig)
    requires OrderInv(s) && UsesNewMission(s, i, config)
    ensures OrderInv(Step(s, i, config))
  {
    StepPuts(s, i, config);
    StepIssues(s, i, config);
    StepKeyed(s, i, config);
    StepSequences(s, i, config);
    FollowingWrites(s, i, config);
    var ch, n := StepChanges(s, i, config), Step(s, i, config);
    hide Step, StepChanges, UsesNewMission;
    OrderKept(s, n, ch);
  }

  lemma OrderKept(s: DomainState, n: DomainState, ch: Changes)
    requires OrderInv(s) && SequencesInv(n)
    requires n.missions == Put(s, ch).missions && n.commands == Put(s, ch).commands
    requires ch.mission.Some? && ch.mission.value.missionId in s.missions ==>
               ch.mission.value.robotId == s.missions[ch.mission.value.missionId].robotId
    requires ch.command.Some? ==>
               var c := ch.command.value;
               && c.commandId !in s.commands
               && ch.mission.Some? && ch.mission.value.missionId == c.missionId && ch.mission.value.robotId == c.robotId
               && (c.robotId in s.nextSequence ==> c.sequence == s.nextSequence[c.robotId])
               && (!c.commandType.CancelMission? ==> c.missionId !in s.missions)
               && (c.missionId in s.missions ==> c.robotId == s.missions[c.missionId].robotId)
    ensures OrderInv(n)
  {
    assert CommandsOwned(n);
    if ch.command.Some? {
      var c := ch.command.value;
      forall x | x in s.commands && s.commands[x].missionId == c.missionId
        ensures c.commandType.CancelMission? && s.commands[x].sequence < c.sequence
      {
        SequenceBelowCounter(s, x);
      }
    }
    hide SequencesInv;
  }

  predicate RunUsesNewMissions(s: DomainState, inputs: seq<Input>, config: DomainConfig)
    decreases |inputs|
  {
    inputs == []
    || (UsesNewMission(s, inputs[0], config) && RunUsesNewMissions(Step(s, inputs[0], config), inputs[1..], config))
  }

  lemma {:induction false} RunOrder(s: DomainState, inputs: seq<Input>, config: DomainConfig)
    requires OrderInv(s) && RunUsesNewMissions(s, inputs, config)
    ensures OrderInv(Run(s, inputs, config))
    decreases |inputs|
  {
    hide Step, OrderInv, UsesNewMission;
    if inputs != [] {
      StepOrder(s, inputs[0], config);
      RunOrder(Step(s, inputs[0], config), inputs[1..], config);
    }
  }

  lemma {:induction false} FollowingUsesNew(s: DomainState, inputs: seq<Input>, config: DomainConfig)
    requires RunFollows(s, inputs, config)
    ensures RunUsesNewMissions(s, inputs, config)
    decreases |inputs|
  {
    hide Step, UsesNewMission, EchoesSequence, ReportsActive;
    if inputs != [] {
      FollowingUsesNew(Step(s, inputs[0], config), inputs[1..], config);
    }
  }

  /******* After the cancellation is acknowledged *******/

  /** The mission is inactive and has acknowledged a sequence above all its commands but cancellations. */
  ghost predicate Closed(s: DomainState, m: Id) {
    && m in s.missions && !IsActive(s.missions[m].lifecycle)
    && s.missions[m].lastAcknowledgedCommandSequence.Some?
    && forall c | c in s.commands && s.commands[c].missionId == m && !s.commands[c].commandType.CancelMission? ::
         s.commands[c].sequence < s.missions[m].lastAcknowledgedCommandSequence.value
  }

  /** The input gives the mission no new command, and it echoes the sequence and does not resume it. */
  predicate LeavesClosed(s: DomainState, i: Input, m: Id, config: DomainConfig) {
    && EchoesSequence(s, i)
    && (i.DispatchRequest? && i.d.missionId == m ==> !WritesItsMission(s, i.d, config))
    && (i.ReconnectHandshake? && i.handshake.reportedMissionId == Some(m) ==>
          !Resumes(s, i.handshake))
  }

  /** The changes give a closed mission no command and rewrite it only into another closed one. */
  ghost predicate KeepsClosed(s: DomainState, ch: Changes, m: Id)
    requires Closed(s, m)
  {
    && (ch.mission.Some? && ch.mission.value.missionId == m ==>
          && !IsActive(ch.mission.value.lifecycle)
          && ch.mission.value.lastAcknowledgedCommandSequence.Some?
          && s.missions[m].lastAcknowledgedCommandSequence.value
             <= ch.mission.value.lastAcknowledgedCommandSequence.value)
    && (ch.command.Some? ==> ch.command.value.missionId != m)
  }

  lemma ClosedWrites(s: DomainState, i: Input, m: Id, config: DomainConfig)
    requires KeyedById(s) && Closed(s, m) && LeavesClosed(s, i, m, config)
    ensures KeepsClosed(s, StepChanges(s, i, config), m)
  {
    CancelNeedsActive(s, i, config);
    hide DispatchSignature, CancelSignature, TargetPose, PayloadIssues, AssignedRobot, AckChanges, ReportedRobot;
    hide ReconciledRobot, FreshConnection, Judge, JudgeCancel, ReasonPayload, ReconciledMission, Resumes, FreshKey;
    hide Proper, Sendable;
    WritesExactly(s, i, config);
    match i
    case CommandAck(ack) => AckedWrites(s, ack, m);
    case ReconnectHandshake(h, now, correlationId) => ReconciledWrites(s, h, now.Or(h.connectedAt), m);
    case _ =>
  }

  /** An acknowledgement that echoes its command's sequence is stale here unless it is of a cancellation. */
  lemma AckedWrites(s: DomainState, ack: Ack, m: Id)
    requires KeyedById(s) && Closed(s, m) && EchoesSequence(s, CommandAck(ack))
    ensures KeepsClosed(s, AckChanges(s, ack), m)
  {
    hide AckedRobot;
  }

  lemma ReconciledWrites(s: DomainState, h: HandshakeReport, at: Time, m: Id)
    requires KeyedById(s) && Closed(s, m)
    requires h.reportedMissionId == Some(m) ==> !Resumes(s, h)
    ensures var mission := ReconciledMission(s, h, at);
            mission.Some? && mission.value.missionId == m ==>
              && !IsActive(mission.value.lifecycle)
              && mission.value.lastAcknowledgedCommandSequence == s.missions[m].lastAcknowledgedCommandSequence
  {
    HandshakeExactly(s, h);
    hide DecideReconciliation, ReportsAnother, ClaimsExpired, LeavesGap;
  }

  lemma StepClosed(s: DomainState, i: Input, m: Id, config: DomainConfig)
    requires KeyedById(s) && Closed(s, m) && LeavesClosed(s, i, m, config)
    ensures Closed(Step(s, i, config), m)
  {
    hide Step, StepChanges, LeavesClosed;
    StepPuts(s, i, config);
    ClosedWrites(s, i, m, config);
  }

  /** An input that follows the protocol leaves a closed mission closed. */
  lemma FollowingLeavesClosed(s: DomainState, i: Input, m: Id, config: DomainConfig)
    requires m in s.missions && !ActiveIn(s, m) && Follows(s, i, config)
    ensures LeavesClosed(s, i, m, config)
  {
    hide Judge;
  }

  lemma ClosedIsInactive(s: DomainState, m: Id)
    requires Closed(s, m)
    ensures m in s.missions && !ActiveIn(s, m)
  {
  }

  lemma {:induction false} RunClosed(s: DomainState, inputs: seq<Input>, m: Id, config: DomainConfig)
    requires KeyedById(s) && Closed(s, m) && RunFollows(s, inputs, config)
    ensures Closed(Run(s, inputs, config), m)
    decreases |inputs|
  {
    hide Step, Closed, Follows, KeyedById;
    if inputs != [] {
      assert m in s.missions && !ActiveIn(s, m) by {
        ClosedIsInactive(s, m);
      }
      FollowingLeavesClosed(s, inputs[0], m, config);
      StepClosed(s, inputs[0], m, config);
      StepKeyed(s, inputs[0], config);
      RunClosed(Step(s, inputs[0], config), inputs[1..], m, config);
    }
  }

  /** The acknowledgement of a cancellation that the platform takes. */
  predicate AcknowledgesCancel(s: DomainState, ack: Ack, m: Id) {
    && Counts(s, ack) && s.commands[ack.commandId].missionId == m
    && s.commands[ack.commandId].commandType.CancelMission? && (ack.status.Accepted? || ack.status.Duplicate?)
  }

  lemma CancelAckWrites(s: DomainState, ack: Ack, m: Id, config: DomainConfig)
    requires KeyedById(s) && AcknowledgesCancel(s, ack, m)
    ensures var n, command := Step(s, CommandAck(ack), config), s.commands[ack.commandId];
            n.missions == s.missions[m := AckedMission(ack, command, s.missions[m])] && n.commands == s.commands
  {
    StepPuts(s, CommandAck(ack), config);
    JudgeAckExactly(s, ack);
    hide Step, AckedRobot, LifecycleFromAck, JudgeAck, Stale;
    var command := s.commands[ack.commandId];
    assert StepChanges(s, CommandAck(ack), config) == AckedChanges(s, ack, command, s.missions[m]);
    hide StepChanges;
  }

  lemma CancelAckCloses(s: DomainState, ack: Ack, m: Id, config: DomainConfig)
    requires OrderInv(s) && AcknowledgesCancel(s, ack, m) && EchoesSequence(s, CommandAck(ack))
    ensures Closed(Step(s, CommandAck(ack), config), m)
    ensures KeyedById(Step(s, CommandAck(ack), config))
  {
    assert KeyedById(s);
    CancelAckWrites(s, ack, m, config);
    StepKeyed(s, CommandAck(ack), config);
    hide Step, SequencesInv, CommandsOwned, KeyedById, Stale;
  }

  /** From the state in which the acknowledgement arrives, nothing that follows revives the mission. */
  lemma ClosedForGood(s: DomainState, ack: Ack, after: seq<Input>, m: Id, config: DomainConfig)
    requires OrderInv(s) && AcknowledgesCancel(s, ack, m)
    requires RunFollows(s, [CommandAck(ack)] + after, config)
    ensures !ActiveIn(Run(s, [CommandAck(ack)] + after, config), m)
  {
    var rest := [CommandAck(ack)] + after;
    assert rest[0] == CommandAck(ack) && rest[1..] == after;
    var n := Step(s, CommandAck(ack), config);
    hide Step, OrderInv, KeyedById, AcknowledgesCancel, Follows;
    CancelAckCloses(s, ack, m, config);
    RunClosed(n, after, m, config);
    assert Run(s, rest, config) == Run(n, after, config);
  }

  lemma OrderInitially()
    ensures OrderInv(INITIAL_STATE)
  {
  }

  /**
   Once a cancellation of mission `m` has been acknowledged as accepted or duplicate and the platform has
   processed that acknowledgement, `m` is not active after any further steps, whatever they are.
   */
  lemma CancelIsFinal(before: seq<Input>, ack: Ack, after: seq<Input>, m: Id, config: DomainConfig)
    requires RunFollows(INITIAL_STATE, before + ([CommandAck(ack)] + after), config)
    requires AcknowledgesCancel(Run(INITIAL_STATE, before, config), ack, m)
    ensures !ActiveIn(Run(INITIAL_STATE, before + ([CommandAck(ack)] + after), config), m)
  {
    hide Step, Run, RunFollows, OrderInv, AcknowledgesCancel, ActiveIn;
    var rest := [CommandAck(ack)] + after;
    RunFollowsSplit(INITIAL_STATE, before, rest, config);
    RunAppend(INITIAL_STATE, before, rest, config);
    OrderInitially();
    FollowingUsesNew(INITIAL_STATE, before, config);
    RunOrder(INITIAL_STATE, before, config);
    ClosedForGood(Run(INITIAL_STATE, before, config), ack, after, m, config);
  }
}
