/** Which steps of the reducers leave a state that the schema accepts, and which one that can be read again. */
module StorableRuns {
  import opened FleetState
  import opened Dispatch
  import opened Cancel
  import opened Acknowledge
  import opened Telemetry
  import opened Reconnect
  import opened Decisions
  import opened FleetRun
  import opened Sequences
  import opened Idempotency
  import opened Columns
  import opened ColumnSteps
  import opened Outbox
  import opened Database

  /** A refused dispatch for a robot the platform does not know: its mission has no robot to refer to. */
  predicate StrandsMission(s: DomainState, i: Input, config: DomainConfig) {
    i.DispatchRequest? && Refusable(s, i.d, config) && i.d.robotId !in s.robots
  }

  /** The database takes the step: a condition on the input and the stored state. */
  predicate SchemaTakes(s: DomainState, i: Input, config: DomainConfig) {
    InputFits(s, i, config) && !StrandsMission(s, i, config)
  }

  ghost predicate StorableInv(s: DomainState) {
    SequencesInv(s) && IdempotencyInv(s) && LogsNumbered(s) && Storable(s)
  }

  /******* References *******/

  /** What a step writes, seen by the foreign keys: a mission or command only of a known or new robot. */
  lemma WritesKnownRobots(s: DomainState, i: Input, config: DomainConfig)
    requires KeyedById(s) && MissionsRefer(s.missions, s.robots)
    ensures var ch := StepChanges(s, i, config);
            && (ch.mission.Some? && !StrandsMission(s, i, config) ==>
                  ch.mission.value.robotId in Put(s, ch).robots)
            && (StrandsMission(s, i, config) ==>
                  ch.mission.Some? && ch.mission.value.robotId !in Put(s, ch).robots)
  {
    StepMissions(s, i, config);
    StepIssues(s, i, config);
    if i.DispatchRequest? {
      JudgeExactly(s, i.d, config);
    }
    hide Judge, Refusable, Acceptable, Contradicted, Answered;
    hide DispatchSignature, CancelSignature, TargetPose, PayloadIssues, ReconciledMission, DecideReconciliation;
    hide FreshConnection, DispatchRefusal, CancelRefusal, ReasonPayload, AckedMission, ReportedMission;
  }

  lemma MissionsReferAfter(s: DomainState, i: Input, config: DomainConfig)
    requires KeyedById(s) && MissionsRefer(s.missions, s.robots)
    ensures var n := Step(s, i, config);
            MissionsRefer(n.missions, n.robots) <==> !StrandsMission(s, i, config)
  {
    var n, ch := Step(s, i, config), StepChanges(s, i, config);
    StepPuts(s, i, config);
    WritesKnownRobots(s, i, config);
    hide Step, StepChanges, StrandsMission;
    if StrandsMission(s, i, config) {
      assert n.missions[ch.mission.value.missionId] == ch.mission.value;
    }
  }

  lemma CommandsReferAfter(s: DomainState, i: Input, config: DomainConfig)
    requires KeyedById(s) && MissionsRefer(s.missions, s.robots) && CommandsRefer(s.commands, s.missions, s.robots)
    ensures var n := Step(s, i, config);
            CommandsRefer(n.commands, n.missions, n.robots)
  {
    var ch := StepChanges(s, i, config);
    StepPuts(s, i, config);
    StepIssues(s, i, config);
    WritesKnownRobots(s, i, config);
    IssuingIsNotStranding(s, i, config);
    hide Step, StepChanges, StrandsMission, KeyedById, CommandsRefer, MissionsRefer;
    CommandsReferPut(s, ch);
  }

  lemma CommandsReferPut(s: DomainState, ch: Changes)
    requires CommandsRefer(s.commands, s.missions, s.robots)
    requires ch.command.Some? ==>
               && ch.mission.Some? && ch.mission.value.missionId == ch.command.value.missionId
               && ch.mission.value.robotId == ch.command.value.robotId && ch.command.value.robotId in Put(s, ch).robots
    ensures CommandsRefer(Put(s, ch).commands, Put(s, ch).missions, Put(s, ch).robots)
  {
  }

  lemma IssuingIsNotStranding(s: DomainState, i: Input, config: DomainConfig)
    ensures StepChanges(s, i, config).command.Some? ==> !StrandsMission(s, i, config)
  {
    if i.DispatchRequest? {
      JudgeExactly(s, i.d, config);
    }
    hide Judge, Refusable, Acceptable, Contradicted, Answered;
  }

  lemma SequencesStorable(s: DomainState)
    requires SequencesInv(s)
    ensures SequencesUnique(s.commands)
  {
    forall c | c in s.commands ensures 0 < s.commands[c].sequence {
      var r := s.commands[c].robotId;
      var first :| GaplessFrom(s, r, first);
      assert s.commands[c].sequence in Used(s, r);
    }
  }

  lemma RecordsStorable(s: DomainState)
    requires IdempotencyInv(s)
    ensures RecordsRefer(s.idempotencyRecords, s.missions, s.commands)
  {
    RecordsSettle(s);
  }

  lemma NumberedUnique(s: DomainState)
    requires LogsNumbered(s)
    ensures EventIdsUnique(s.domainEvents) && AuditIdsUnique(s.auditEvents)
  {
    hide DomainEventId, AuditEventId;
    forall i, j | 0 <= i < j < |s.domainEvents| ensures s.domainEvents[i].eventId != s.domainEvents[j].eventId {
      IdsInjective(i + 1, j + 1);
    }
    forall i, j | 0 <= i < j < |s.auditEvents| ensures s.auditEvents[i].auditEventId != s.auditEvents[j].auditEventId {
      IdsInjective(i + 1, j + 1);
    }
  }

  /**
   From a sound stored state that can be read, a step of the reducers leaves a state the schema accepts if and only
   if its values fit the columns and it strands no mission.
   */
  lemma StepStorable(s: DomainState, i: Input, config: DomainConfig)
    requires StorableInv(s) && Readable(s)
    ensures Storable(Step(s, i, config)) <==> SchemaTakes(s, i, config)
    ensures SchemaTakes(s, i, config) ==> StorableInv(Step(s, i, config))
  {
    hide RowsFit, InputFits, Readable, LogsNumbered, MissionsRefer, CommandsRefer, SequencesUnique, RecordsRefer;
    hide Step, StrandsMission, EventIdsUnique, AuditIdsUnique, UsedOnce, CountersCover, RecordSound, CommandRecorded;
    var n := Step(s, i, config);
    StepFits(s, i, config);
    StepSequences(s, i, config);
    StepIdempotency(s, i, config);
    StepAppends(s, i, config);
    MissionsReferAfter(s, i, config);
    CommandsReferAfter(s, i, config);
    SequencesStorable(n);
    RecordsStorable(n);
    NumberedUnique(n);
  }

  /******* Inputs that pass the wire validators and cannot be stored *******/

  /** Any risky request for a robot the platform has never heard of. */
  lemma RiskyDispatchStrands(s: DomainState, d: DispatchInput, config: DomainConfig)
    requires StorableInv(s) && Readable(s) && d.robotId !in s.robots && d.idempotencyKey !in s.idempotencyRecords
    requires NeedsFitRobot(d.commandType, d.safetyClass)
    ensures !Storable(Step(s, DispatchRequest(d), config))
  {
    hide Step, StorableInv, Storable, Proper, NeedsFitRobot, InputFits, Readable;
    StepStorable(s, DispatchRequest(d), config);
  }

  /** New telemetry with a fraction of a percent of battery; the validator takes any number from 0 to 100. */
  lemma FractionalBatteryRefused(s: DomainState, t: TelemetryReport, config: DomainConfig)
    requires StorableInv(s) && Readable(s) && t.eventId !in s.processedEventIds
    requires t.batteryPercent == 71.5
    ensures !Storable(Step(s, RobotTelemetry(t), config))
  {
    hide Step, StorableInv, Storable, Readable;
    StepStorable(s, RobotTelemetry(t), config);
  }

  /** An acceptable cancellation whose reason holds U+0000; the validator takes any reason that is not empty. */
  lemma NulReasonRefused(s: DomainState, c: CancelInput, config: DomainConfig)
    requires StorableInv(s) && Readable(s) && Cancellable(s, c, config)
    requires c.reason == [0]
    ensures !Storable(Step(s, CancelRequest(c), config))
  {
    hide Step, StorableInv, Storable, Readable;
    assert c.reason[0] == 0 && !NoNul(c.reason);
    StepStorable(s, CancelRequest(c), config);
  }

  /******* Numbers that can be stored and not read *******/

  /** The numbers the step would store are ones that the repository reads back. */
  predicate StaysReadable(s: DomainState, i: Input, config: DomainConfig) {
    match i
    case DispatchRequest(d) =>
      Acceptable(s, d, config) && d.robotId in s.nextSequence ==> s.nextSequence[d.robotId] < MAX_SAFE_INTEGER
    case CancelRequest(c) =>
      Cancellable(s, c, config) ==> CancelSequence(s, s.missions[c.missionId]) < MAX_SAFE_INTEGER
    case CommandAck(ack) => Counts(s, ack) ==> ack.lastSeenCommandSequence <= MAX_SAFE_INTEGER
    case RobotTelemetry(t) => t.eventId !in s.processedEventIds ==> t.lastSeenCommandSequence <= MAX_SAFE_INTEGER
    case ReconnectHandshake(h, _, _) =>
      h.edgeSessionId !in s.processedSessionIds ==> h.lastSeenCommandSequence <= MAX_SAFE_INTEGER
    case EdgeConnected(_, hello, _) =>
      hello.Some? ==> hello.value.lastSeenCommandSequence.Or(0) <= MAX_SAFE_INTEGER
    case _ => true
  }

  predicate ChangesReadable(ch: Changes) {
    && (ch.robot.Some? ==> ch.robot.value.lastSeenCommandSequence <= MAX_SAFE_INTEGER)
    && (ch.mission.Some? ==>
          OptSafe(ch.mission.value.lastCommandSequence) && OptSafe(ch.mission.value.lastAcknowledgedCommandSequence))
    && (ch.command.Some? ==> ch.command.value.sequence < MAX_SAFE_INTEGER)
  }

  lemma PutReadable(s: DomainState, ch: Changes)
    requires Readable(s) && (ch.command.Some? ==> 1 <= ch.command.value.sequence)
    ensures Readable(Put(s, ch)) <==> ChangesReadable(ch)
  {
    var p := Put(s, ch);
    assert ch.robot.Some? ==> p.robots[ch.robot.value.robotId] == ch.robot.value;
    assert ch.mission.Some? ==> p.missions[ch.mission.value.missionId] == ch.mission.value;
    assert ch.command.Some? ==> p.nextSequence[ch.command.value.robotId] == ch.command.value.sequence + 1;
  }

  /** Otherwise the new state can be stored, and nothing can be stored after it. */
  lemma StepReadable(s: DomainState, i: Input, config: DomainConfig)
    requires SequencesInv(s) && Readable(s)
    ensures Readable(Step(s, i, config)) <==> StaysReadable(s, i, config)
  {
    StepPuts(s, i, config);
    IssuedSequence(s, i, config);
    hide Step, SequencesInv;
    PutReadable(s, StepChanges(s, i, config));
    ReadableChanges(s, i, config);
    hide Put, StepChanges;
  }

  lemma ReadableChanges(s: DomainState, i: Input, config: DomainConfig)
    requires KeyedById(s) && Readable(s)
    ensures ChangesReadable(StepChanges(s, i, config)) <==> StaysReadable(s, i, config)
  {
    hide Judge, JudgeCancel, JudgeAck, DispatchSignature, CancelSignature, TargetPose, FreshConnection, IsActive;
    hide SawExpiredCommand, CancelSequence, ReasonPayload, LifecycleFromAck, DecideReconciliation;
    hide Acceptable, Cancellable, Stale;
    match i
    case DispatchRequest(d) => JudgeExactly(s, d, config);
    case CancelRequest(c) => JudgeCancelExactly(s, c, config);
    case CommandAck(ack) => JudgeAckExactly(s, ack);
    case _ =>
  }
}
