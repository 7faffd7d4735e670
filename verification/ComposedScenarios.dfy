/** Runs of the composed system from its start: what the hypotheses of the theorems about it keep out. */
module ComposedScenarios {
  import opened Texts
  import opened KeySort
  import opened Json
  import opened FleetState
  import opened Dispatch
  import opened Cancel
  import opened Acknowledge
  import opened Reconnect
  import opened FleetRun
  import opened CancelFinality
  import opened EdgeAgent
  import opened EdgeComposition
  import opened EdgeReports
  import opened InOrderFinality
  import opened Scenarios

  /******* A motion command *******/

  const ZERO: Number := [48]

  const TARGET_POSE: Json := JObject([
    Member(Ascii("x"), JNumber(ZERO)), Member(Ascii("y"), JNumber(ZERO)), Member(Ascii("theta"), JNumber(ZERO))])

  lemma CoordinatesDiffer()
    ensures Ascii("x") != Ascii("y") && Ascii("x") != Ascii("theta") && Ascii("y") != Ascii("theta")
  {
    assert Ascii("x")[0] == 120 && Ascii("y")[0] == 121 && Ascii("theta")[0] == 116;
  }

  lemma PoseWellFormed()
    ensures WellFormed(JObject([Member(TARGET, TARGET_POSE)]))
  {
    CoordinatesDiffer();
    assert WellFormed(JNumber(ZERO));
    assert WellFormed(TARGET_POSE);
  }

  function PosePayload(): JsonTree {
    PoseWellFormed();
    JObject([Member(TARGET, TARGET_POSE)])
  }

  lemma PoseHasNoIssues()
    ensures PayloadIssues(GoToPose, PosePayload()) == []
  {
    CoordinatesDiffer();
    var ms := TARGET_POSE.members;
    assert FindMember(ms, Ascii("x")) == Some(JNumber(ZERO));
    assert FindMember(ms[1..], Ascii("y")) == Some(JNumber(ZERO));
    assert FindMember(ms[2..], Ascii("theta")) == Some(JNumber(ZERO));
    assert ms[1..][1..] == ms[2..];
    assert FindMember(ms, Ascii("theta")) == FindMember(ms[1..], Ascii("theta"));
  }

  /** A request that robot `r` drive to the origin; it uses `x` for all its ids. */
  function DriveRequest(x: Id, r: Id, at: Time): DispatchInput {
    DispatchInput(x, x, r, GoToPose, x, at, at + 1000, x, x, PosePayload(), at, None, None)
  }

  /** The robot is online with enough battery and works on nothing that is active. */
  predicate Ready(s: DomainState, r: Id) {
    && r in s.robots && s.robots[r].robotId == r && s.robots[r].connectionState.ONLINE?
    && s.robots[r].batteryPercent == Some(80.0)
    && (s.robots[r].activeMissionId.Some? ==> !ActiveIn(s, s.robots[r].activeMissionId.value))
  }

  lemma DriveAccepted(s: DomainState, x: Id, r: Id, at: Time)
    requires x !in s.commands && x !in s.idempotencyRecords && Ready(s, r)
    ensures var d := DriveRequest(x, r, at);
            var n := Step(s, DispatchRequest(d), DEFAULT_CONFIG);
            && n.missions == s.missions[x := DispatchedMission(d, NextSequence(s, r))]
            && n.robots == s.robots[r := AssignedRobot(s.RobotOf(r), d)]
            && n.commands == s.commands[x := DispatchedCommand(d, NextSequence(s, r))]
            && n.idempotencyRecords.Keys == s.idempotencyRecords.Keys + {x}
            && n.nextSequence == s.nextSequence[r := NextSequence(s, r) + 1]
            && n.processedAckIds == s.processedAckIds && n.processedSessionIds == s.processedSessionIds
  {
    hide Step, DispatchSignature, TargetPose, PosePayload, PayloadIssues;
    PoseHasNoIssues();
    var d := DriveRequest(x, r, at);
    StepPuts(s, DispatchRequest(d), DEFAULT_CONFIG);
    assert Judge(s, d, DEFAULT_CONFIG) == Accept;
    hide Judge;
  }

  /******* Single actions *******/

  lemma PlatformStep(w: World, i: Input, config: DomainConfig)
    requires FromPlatform(i)
    ensures Next(w, PlatformInput(i), config) == w.(cloud := Step(w.cloud, i, config))
  {
    hide Step, Run;
    RunOne(w.cloud, i, config);
  }

  lemma HelloStep(w: World, r: Id, hello: Hello, at: Time, config: DomainConfig)
    requires Sent(r, HelloMessage(hello)) in w.sent
    ensures Next(w, MessageArrives(Sent(r, HelloMessage(hello)), at, r), config)
         == w.(cloud := Step(w.cloud, EdgeConnected(r, Some(hello), at), config))
  {
    hide Step, Run;
    RunOne(w.cloud, EdgeConnected(r, Some(hello), at), config);
  }

  /** A handshake from a robot that is not being reconnected yet. */
  lemma HandshakeStep(w: World, r: Id, h: HandshakeReport, at: Time, config: DomainConfig)
    requires Sent(r, HandshakeMessage(h)) in w.sent && h.robotId == r
    requires r in w.cloud.robots && !w.cloud.robots[r].connectionState.RECONNECTING?
    ensures var mid := Step(w.cloud, ReconnectStarted(ReconnectInput(r, at, r)), config);
            Next(w, MessageArrives(Sent(r, HandshakeMessage(h)), at, r), config)
            == w.(cloud := Step(mid, ReconnectHandshake(h, Some(at), r), config))
  {
    hide Step, Run;
    var i1, i2 := ReconnectStarted(ReconnectInput(r, at, r)), ReconnectHandshake(h, Some(at), r);
    RunFirst(w.cloud, i1, [i2], config);
    RunOne(Step(w.cloud, i1, config), i2, config);
    assert [i1] + [i2] == InputsOf(w.cloud, Sent(r, HandshakeMessage(h)), at, r);
  }

  /** One action and the rest. */
  lemma FirstAction(w: World, a: Action, rest: seq<Action>, config: DomainConfig)
    ensures Execute(w, [a] + rest, config) == Execute(Next(w, a, config), rest, config)
    ensures ExecutionUsesNew(w, [a] + rest, config)
            <==> ActionUsesNew(w, a, config) && ExecutionUsesNew(Next(w, a, config), rest, config)
    ensures ExecutionInOrder(w, [a] + rest, config)
            <==> ActionInOrder(w, a, config) && ExecutionInOrder(Next(w, a, config), rest, config)
  {
    hide Next, ActionUsesNew, ActionInOrder;
    assert ([a] + rest)[0] == a && ([a] + rest)[1..] == rest;
  }

  /** Three actions and the rest. */
  lemma FirstActions(w: World, a: Action, b: Action, c: Action, rest: seq<Action>, config: DomainConfig)
    ensures var w1 := Next(w, a, config);
            var w2 := Next(w1, b, config);
            var w3 := Next(w2, c, config);
            && Execute(w, [a, b, c] + rest, config) == Execute(w3, rest, config)
            && (ExecutionUsesNew(w, [a, b, c] + rest, config)
                <==> ActionUsesNew(w, a, config) && ActionUsesNew(w1, b, config) && ActionUsesNew(w2, c, config)
                     && ExecutionUsesNew(w3, rest, config))
            && (ExecutionInOrder(w, [a, b, c] + rest, config)
                <==> ActionInOrder(w, a, config) && ActionInOrder(w1, b, config) && ActionInOrder(w2, c, config)
                     && ExecutionInOrder(w3, rest, config))
  {
    hide Next, ActionUsesNew, ActionInOrder, Execute, ExecutionUsesNew, ExecutionInOrder;
    assert [a, b, c] + rest == [a] + ([b] + ([c] + rest));
    FirstAction(w, a, [b] + ([c] + rest), config);
    FirstAction(Next(w, a, config), b, [c] + rest, config);
    FirstAction(Next(Next(w, a, config), b, config), c, rest, config);
  }

  lemma NoActions(w: World, config: DomainConfig)
    ensures Execute(w, [], config) == w && ExecutionUsesNew(w, [], config) && ExecutionInOrder(w, [], config)
  {
  }

  /** Nothing is asked of these. */
  lemma EasyAction(w: World, a: Action, config: DomainConfig)
    requires a.StartEdge? || a.SayHello? || a.MessageArrives? || a.SendHandshake?
    ensures ActionInOrder(w, a, config)
  {
  }

  /******* A robot on its way *******/

  const SAID_HELLO := (r: Id) => Sent(r, CreateHello(InitialEdge(r, r, r, 0)))

  /** The edge of `r` has started, said hello and been heard; the platform knows nothing else. */
  ghost predicate Connected(w: World, r: Id) {
    && KeyedById(w.cloud) && Ready(w.cloud, r) && w.cloud.robots.Keys == {r}
    && w.cloud.robots[r].activeMissionId == None
    && w.cloud.missions == map[] && w.cloud.commands == map[] && w.cloud.idempotencyRecords == map[]
    && w.cloud.nextSequence == map[] && w.cloud.processedAckIds == [] && w.cloud.processedSessionIds == []
    && r in w.edges && w.edges[r] == InitialEdge(r, r, r, 0)
  }

  lemma ReachConnected(r: Id)
    ensures var w1 := Next(INITIAL_WORLD, StartEdge(r, r, r, 0), DEFAULT_CONFIG);
            var w2 := Next(w1, SayHello(r), DEFAULT_CONFIG);
            Connected(Next(w2, MessageArrives(SAID_HELLO(r), 0, r), DEFAULT_CONFIG), r)
  {
    hide Step, Run;
    var w1 := Next(INITIAL_WORLD, StartEdge(r, r, r, 0), DEFAULT_CONFIG);
    var w2 := Next(w1, SayHello(r), DEFAULT_CONFIG);
    var hello := Hello(Some(r), Some(0));
    assert SAID_HELLO(r) == Sent(r, HelloMessage(hello));
    HelloStep(w2, r, hello, 0, DEFAULT_CONFIG);
    InitiallyKeyed();
    StepKeyed(INITIAL_STATE, EdgeConnected(r, Some(hello), 0), DEFAULT_CONFIG);
    StepPuts(INITIAL_STATE, EdgeConnected(r, Some(hello), 0), DEFAULT_CONFIG);
  }

  /** Mission `m` has been issued for `r` with sequence 1. */
  ghost predicate Issued(s: DomainState, r: Id, m: Id) {
    && KeyedById(s) && s.missions.Keys == s.commands.Keys == s.idempotencyRecords.Keys == {m}
    && s.missions[m].missionId == m && s.missions[m].robotId == r
    && s.missions[m].lifecycle.DISPATCHED? && s.missions[m].currentCommandId == Some(m)
    && s.missions[m].lastAcknowledgedCommandSequence == None
    && s.commands[m] == DispatchedCommand(DriveRequest(m, r, 0), 1)
    && s.nextSequence == map[r := 2]
    && s.robots.Keys == {r} && s.robots[r].robotId == r && s.robots[r].connectionState.ONLINE?
    && s.robots[r].batteryPercent == Some(80.0) && s.robots[r].activeMissionId == Some(m)
    && s.processedAckIds == [] && s.processedSessionIds == []
  }

  function DriveAck(r: Id, m: Id): Sent {
    Sent(r, AckMessage(Ack(m, m, r, Accepted, 5, 1, None, m, m)))
  }

  /** The robot drives and has said so; nobody has heard it yet. */
  ghost predicate Driving(w: World, r: Id, m: Id) {
    && Issued(w.cloud, r, m) && r in w.edges && w.edges[r].robotId == r && w.edges[r].lastSeenCommandSequence == 1
    && w.edges[r].edgeAgentVersion == r && DriveAck(r, m) in w.sent
  }

  lemma ReachIssued(w: World, r: Id, m: Id)
    requires Connected(w, r)
    ensures var a := PlatformInput(DispatchRequest(DriveRequest(m, r, 0)));
            var n := Next(w, a, DEFAULT_CONFIG);
            Issued(n.cloud, r, m) && n.edges == w.edges && ActionInOrder(w, a, DEFAULT_CONFIG)
  {
    hide Step, Run, TargetPose, PosePayload, Judge, KeyedById;
    var i := DispatchRequest(DriveRequest(m, r, 0));
    PlatformStep(w, i, DEFAULT_CONFIG);
    StepKeyed(w.cloud, i, DEFAULT_CONFIG);
    DriveAccepted(w.cloud, m, r, 0);
  }

  lemma ReachDriving(w: World, r: Id, m: Id)
    requires Issued(w.cloud, r, m) && r in w.edges && w.edges[r] == InitialEdge(r, r, r, 0)
    ensures Driving(Next(w, CommandArrives(m, r, 5, m), DEFAULT_CONFIG), r, m)
    ensures ActionInOrder(w, CommandArrives(m, r, 5, m), DEFAULT_CONFIG)
  {
    hide Run, PosePayload, KeyedById;
  }

  /******* Without order a cancelled mission comes back *******/

  function CancelDoneAck(r: Id, k: Id): Sent {
    Sent(r, AckMessage(Ack(k, k, r, Accepted, 15, 2, None, k, k)))
  }

  /** The cancellation `k` of `m` has been issued with sequence 2. */
  ghost predicate Cancelling(s: DomainState, r: Id, m: Id, k: Id) {
    && KeyedById(s) && CancelSent(s, r, m, k) && s.robots[r].connectionState.ONLINE?
    && s.commands[k] == CancelCommand(PlainCancel(m, k, 10), s.missions[m], 2)
    && m in s.commands && s.commands[m] == DispatchedCommand(DriveRequest(m, r, 0), 1)
  }

  lemma CancelTaken(s: DomainState, r: Id, m: Id, k: Id)
    requires Issued(s, r, m) && k != m
    ensures JudgeCancel(s, PlainCancel(m, k, 10), DEFAULT_CONFIG) == CancelAccept(s.missions[m])
    ensures CancelSequence(s, s.missions[m]) == 2
  {
    hide CancelSignature, KeyedById, PosePayload;
  }

  lemma CancelIssued(s: DomainState, r: Id, m: Id, k: Id)
    requires Issued(s, r, m) && k != m
    ensures Cancelling(Step(s, CancelRequest(PlainCancel(m, k, 10)), DEFAULT_CONFIG), r, m, k)
  {
    hide Step, JudgeCancel, CancelSequence, CancelSignature, PosePayload, ReasonPayload, KeyedById;
    var c := PlainCancel(m, k, 10);
    CancelTaken(s, r, m, k);
    StepKeyed(s, CancelRequest(c), DEFAULT_CONFIG);
    StepPuts(s, CancelRequest(c), DEFAULT_CONFIG);
  }

  lemma ReachCancelling(w: World, r: Id, m: Id, k: Id)
    requires Driving(w, r, m) && k != m
    ensures var a := PlatformInput(CancelRequest(PlainCancel(m, k, 10)));
            var n := Next(w, a, DEFAULT_CONFIG);
            Cancelling(n.cloud, r, m, k) && n.edges == w.edges && ActionInOrder(w, a, DEFAULT_CONFIG)
  {
    hide Next, Step, Issued, Cancelling;
    CancelIssued(w.cloud, r, m, k);
    PlatformStep(w, CancelRequest(PlainCancel(m, k, 10)), DEFAULT_CONFIG);
  }

  /** The robot has stopped and said so. */
  ghost predicate Stopped(w: World, r: Id, m: Id, k: Id) {
    && Cancelling(w.cloud, r, m, k) && r in w.edges && w.edges[r].robotId == r
    && w.edges[r].lastSeenCommandSequence == 2 && w.edges[r].edgeAgentVersion == r
    && CancelDoneAck(r, k) in w.sent
  }

  lemma ReachStopped(w: World, r: Id, m: Id, k: Id)
    requires Cancelling(w.cloud, r, m, k) && r in w.edges && w.edges[r].robotId == r
    requires w.edges[r].lastSeenCommandSequence == 1 && w.edges[r].edgeAgentVersion == r
    ensures Stopped(Next(w, CommandArrives(k, r, 15, k), DEFAULT_CONFIG), r, m, k)
    ensures ActionInOrder(w, CommandArrives(k, r, 15, k), DEFAULT_CONFIG)
  {
    hide Run, PosePayload, ReasonPayload, KeyedById;
  }

  /** The platform has heard that the mission is cancelled. */
  ghost predicate Heard(w: World, r: Id, m: Id, k: Id) {
    && CancelDone(w.cloud, r, m, k) && w.cloud.robots[r].connectionState.ONLINE?
    && m in w.cloud.commands && w.cloud.commands[m] == DispatchedCommand(DriveRequest(m, r, 0), 1)
    && k in w.cloud.commands && w.cloud.commands[k].commandType.CancelMission?
    && w.cloud.commands[k].missionId == m && w.cloud.commands[k].sequence == 2
    && r in w.edges && w.edges[r].robotId == r && w.edges[r].lastSeenCommandSequence == 2
    && w.edges[r].edgeAgentVersion == r
  }

  lemma ReachHeard(w: World, r: Id, m: Id, k: Id)
    requires Stopped(w, r, m, k)
    ensures Heard(Next(w, MessageArrives(CancelDoneAck(r, k), 20, k), DEFAULT_CONFIG), r, m, k)
  {
    hide Step, Run, KeyedById, PosePayload;
    var ack := CancelDoneAck(r, k).message.ack;
    AckArrives(w, CancelDoneAck(r, k), 20, k, DEFAULT_CONFIG);
    ReachCancelDone(w.cloud, r, m, k, ack);
    StepKeepsCommands(w.cloud, CommandAck(ack), DEFAULT_CONFIG);
    StepPuts(w.cloud, CommandAck(ack), DEFAULT_CONFIG);
  }

  /** The motion command has reached the robot once more, which drives again. */
  ghost predicate DrivesAgain(w: World, r: Id, m: Id, k: Id) {
    && CancelDone(w.cloud, r, m, k) && w.cloud.robots[r].connectionState.ONLINE?
    && r in w.edges && w.edges[r].robotId == r && w.edges[r].edgeAgentVersion == r
    && w.edges[r].lastSeenCommandSequence == 2 && w.edges[r].lastAcknowledgedCommandId == Some(m)
    && w.edges[r].currentMissionId == Some(m) && w.edges[r].reportedLifecycle == Some(RUNNING)
  }

  lemma ReachDrivesAgain(w: World, r: Id, m: Id, k: Id)
    requires Heard(w, r, m, k)
    ensures DrivesAgain(Next(w, CommandArrives(m, r, 25, k), DEFAULT_CONFIG), r, m, k)
  {
    hide Run, PosePayload, KeyedById, CommandAckFor;
  }

  /** The command is one that the cancellation has overtaken. */
  lemma RedeliveryUnheeded(w: World, r: Id, m: Id, k: Id)
    requires Heard(w, r, m, k)
    ensures !ActionHeeds(w, CommandArrives(m, r, 25, k), DEFAULT_CONFIG)
  {
    hide Next, Step, PosePayload, KeyedById, CarriedOut;
    assert !NotOvertaken(w, m, r);
  }

  /** The robot has reported that it drives. */
  ghost predicate Restarted(w: World, r: Id, m: Id, k: Id, h: HandshakeReport) {
    && CancelDone(w.cloud, r, m, k) && w.cloud.robots[r].connectionState.ONLINE?
    && h.robotId == r && h.reportedMissionId == Some(m) && h.reportedLifecycle == Some(RUNNING)
    && h.lastSeenCommandSequence == 2
    && Sent(r, HandshakeMessage(h)) in w.sent
  }

  function RestartReport(r: Id, m: Id, k: Id): HandshakeReport {
    HandshakeReport(r, k, 30, 2, Some(m), Some(m), Some(RUNNING), 30, r)
  }

  lemma ReachRestarted(w: World, r: Id, m: Id, k: Id)
    requires DrivesAgain(w, r, m, k)
    ensures Restarted(Next(w, SendHandshake(r, 30, k), DEFAULT_CONFIG), r, m, k, RestartReport(r, m, k))
  {
    hide Run, CancelDone;
  }

  lemma ReachReturned(w: World, r: Id, m: Id, k: Id, h: HandshakeReport)
    requires Restarted(w, r, m, k, h)
    ensures ActiveIn(Next(w, MessageArrives(Sent(r, HandshakeMessage(h)), 35, r), DEFAULT_CONFIG).cloud, m)
  {
    hide Step, Run, KeyedById, Next;
    var started := ReconnectStarted(ReconnectInput(r, 35, r));
    var mid := Step(w.cloud, started, DEFAULT_CONFIG);
    HandshakeStep(w, r, h, 35, DEFAULT_CONFIG);
    StepPuts(w.cloud, started, DEFAULT_CONFIG);
    StepKeyed(w.cloud, started, DEFAULT_CONFIG);
    ReconnectSkips(w.cloud, ReconnectInput(r, 35, r), m, DEFAULT_CONFIG);
    assert Revives(mid, ReconnectHandshake(h, Some(35), r), m, DEFAULT_CONFIG);
    hide Revives;
    RevivalExact(mid, ReconnectHandshake(h, Some(35), r), m, DEFAULT_CONFIG);
  }

  /** A mission is dispatched, driven, cancelled and reported as cancelled; every command arrives in order. */
  function CancelledStart(r: Id, m: Id, k: Id): seq<Action> {
    [StartEdge(r, r, r, 0), SayHello(r), MessageArrives(SAID_HELLO(r), 0, r)]
    + ([PlatformInput(DispatchRequest(DriveRequest(m, r, 0))), CommandArrives(m, r, 5, m),
        PlatformInput(CancelRequest(PlainCancel(m, k, 10)))]
       + [CommandArrives(k, r, 15, k), MessageArrives(CancelDoneAck(r, k), 20, k)])
  }

  /** Then its motion command arrives again, and the robot reports what it does on reconnecting. */
  function Redelivery(r: Id, m: Id, k: Id): seq<Action> {
    [CommandArrives(m, r, 25, k), SendHandshake(r, 30, k),
     MessageArrives(Sent(r, HandshakeMessage(RestartReport(r, m, k))), 35, r)]
  }

  lemma ReachFirst(r: Id, rest: seq<Action>)
    ensures var start := [StartEdge(r, r, r, 0), SayHello(r), MessageArrives(SAID_HELLO(r), 0, r)];
            exists w ::
              && Connected(w, r)
              && Execute(INITIAL_WORLD, start + rest, DEFAULT_CONFIG) == Execute(w, rest, DEFAULT_CONFIG)
              && (ExecutionInOrder(INITIAL_WORLD, start + rest, DEFAULT_CONFIG)
                  <==> ExecutionInOrder(w, rest, DEFAULT_CONFIG))
  {
    hide Next, ActionInOrder, ActionUsesNew, Execute, ExecutionInOrder, ExecutionUsesNew, Connected;
    var a, b, c := StartEdge(r, r, r, 0), SayHello(r), MessageArrives(SAID_HELLO(r), 0, r);
    var w1 := Next(INITIAL_WORLD, a, DEFAULT_CONFIG);
    var w2 := Next(w1, b, DEFAULT_CONFIG);
    EasyAction(INITIAL_WORLD, a, DEFAULT_CONFIG);
    EasyAction(w1, b, DEFAULT_CONFIG);
    EasyAction(w2, c, DEFAULT_CONFIG);
    FirstActions(INITIAL_WORLD, a, b, c, rest, DEFAULT_CONFIG);
    ReachConnected(r);
    assert Connected(Next(w2, c, DEFAULT_CONFIG), r);
  }

  lemma CancelledInOrder(r: Id, m: Id, k: Id)
    requires k != m
    ensures Heard(Execute(INITIAL_WORLD, CancelledStart(r, m, k), DEFAULT_CONFIG), r, m, k)
    ensures ExecutionInOrder(INITIAL_WORLD, CancelledStart(r, m, k), DEFAULT_CONFIG)
  {
    hide Next, ActionInOrder, ActionUsesNew, Execute, ExecutionInOrder, ExecutionUsesNew, Connected, Issued, Driving;
    hide Cancelling, Stopped, Heard, DriveRequest, PlainCancel;
    var a, b := PlatformInput(DispatchRequest(DriveRequest(m, r, 0))), CommandArrives(m, r, 5, m);
    var c := PlatformInput(CancelRequest(PlainCancel(m, k, 10)));
    var d, e := CommandArrives(k, r, 15, k), MessageArrives(CancelDoneAck(r, k), 20, k);
    ReachFirst(r, [a, b, c] + [d, e]);
    var w :| && Connected(w, r)
             && Execute(INITIAL_WORLD, CancelledStart(r, m, k), DEFAULT_CONFIG)
                == Execute(w, [a, b, c] + [d, e], DEFAULT_CONFIG)
             && (ExecutionInOrder(INITIAL_WORLD, CancelledStart(r, m, k), DEFAULT_CONFIG)
                 <==> ExecutionInOrder(w, [a, b, c] + [d, e], DEFAULT_CONFIG));
    FirstActions(w, a, b, c, [d, e], DEFAULT_CONFIG);
    ConnectedEdge(w, r);
    var w1 := Next(w, a, DEFAULT_CONFIG);
    ReachIssued(w, r, m);
    ReachDriving(w1, r, m);
    var w2 := Next(w1, b, DEFAULT_CONFIG);
    ReachCancelling(w2, r, m, k);
    DrivingEdge(w2, r, m);
    var w3 := Next(w2, c, DEFAULT_CONFIG);
    ReachStopped(w3, r, m, k);
    var w4 := Next(w3, d, DEFAULT_CONFIG);
    ReachHeard(w4, r, m, k);
    EasyAction(w4, e, DEFAULT_CONFIG);
    assert [d, e] == [d] + ([e] + []);
    FirstAction(w3, d, [e] + [], DEFAULT_CONFIG);
    FirstAction(w4, e, [], DEFAULT_CONFIG);
    NoActions(Next(w4, e, DEFAULT_CONFIG), DEFAULT_CONFIG);
  }

  lemma ConnectedEdge(w: World, r: Id)
    requires Connected(w, r)
    ensures r in w.edges && w.edges[r] == InitialEdge(r, r, r, 0)
  {
  }

  lemma DrivingEdge(w: World, r: Id, m: Id)
    requires Driving(w, r, m)
    ensures r in w.edges && w.edges[r].robotId == r && w.edges[r].lastSeenCommandSequence == 1
    ensures w.edges[r].edgeAgentVersion == r
  {
  }

  /**
   What `InOrderFinality` rules out: after a run in order in which mission `m` is cancelled and the platform has
   heard of it, one repeat of its motion command makes the robot drive again, with the sequence of the cancellation
   as the last it has seen; its next handshake passes the gap check and makes the mission active again.
   */
  lemma RedeliveryRevives(r: Id, m: Id, k: Id)
    requires k != m
    ensures var start, redelivery := CancelledStart(r, m, k), Redelivery(r, m, k);
            var w := Execute(INITIAL_WORLD, start, DEFAULT_CONFIG);
            && ExecutionInOrder(INITIAL_WORLD, start, DEFAULT_CONFIG)
            && m in w.cloud.missions && w.cloud.missions[m].lifecycle.CANCELLED?
            && !ActionHeeds(w, redelivery[0], DEFAULT_CONFIG)
            && ActiveIn(Execute(w, redelivery, DEFAULT_CONFIG).cloud, m)
  {
    hide Next, ActionInOrder, ActionUsesNew, Execute, ExecutionInOrder, ExecutionUsesNew, CancelledStart, Heard;
    hide Restarted, DrivesAgain, ActiveIn, ActionHeeds;
    CancelledInOrder(r, m, k);
    var w := Execute(INITIAL_WORLD, CancelledStart(r, m, k), DEFAULT_CONFIG);
    HeardIsCancelled(w, r, m, k);
    var a, b := CommandArrives(m, r, 25, k), SendHandshake(r, 30, k);
    var c := MessageArrives(Sent(r, HandshakeMessage(RestartReport(r, m, k))), 35, r);
    RedeliveryUnheeded(w, r, m, k);
    ReachDrivesAgain(w, r, m, k);
    ReachRestarted(Next(w, a, DEFAULT_CONFIG), r, m, k);
    var w2 := Next(Next(w, a, DEFAULT_CONFIG), b, DEFAULT_CONFIG);
    ReachReturned(w2, r, m, k, RestartReport(r, m, k));
    assert Redelivery(r, m, k) == [a, b, c] + [];
    FirstActions(w, a, b, c, [], DEFAULT_CONFIG);
    NoActions(Next(w2, c, DEFAULT_CONFIG), DEFAULT_CONFIG);
  }

  lemma HeardIsCancelled(w: World, r: Id, m: Id, k: Id)
    requires Heard(w, r, m, k)
    ensures m in w.cloud.missions && w.cloud.missions[m].lifecycle.CANCELLED?
  {
  }

  /******* In order, a late acknowledgement still gives a robot two active missions *******/

  /** The first mission has timed out. */
  ghost predicate GivenUp(w: World, r: Id, m: Id) {
    && KeyedById(w.cloud) && Ready(w.cloud, r)
    && w.cloud.missions.Keys == w.cloud.commands.Keys == w.cloud.idempotencyRecords.Keys == {m}
    && w.cloud.missions[m].missionId == m && w.cloud.missions[m].robotId == r
    && w.cloud.missions[m].lastAcknowledgedCommandSequence == None
    && w.cloud.commands[m] == DispatchedCommand(DriveRequest(m, r, 0), 1)
    && w.cloud.processedAckIds == []
    && DriveAck(r, m) in w.sent
  }

  lemma ReachGivenUp(w: World, r: Id, m: Id)
    requires Driving(w, r, m)
    ensures var a := PlatformInput(MissionTimeout(TimeoutInput(m, 1000, m)));
            GivenUp(Next(w, a, DEFAULT_CONFIG), r, m) && ActionInOrder(w, a, DEFAULT_CONFIG)
  {
    hide Step, Run, KeyedById, PosePayload;
    var i := MissionTimeout(TimeoutInput(m, 1000, m));
    PlatformStep(w, i, DEFAULT_CONFIG);
    StepKeyed(w.cloud, i, DEFAULT_CONFIG);
    PauseTimesOut(w.cloud, m, 1000);
  }

  /** The robot has been given the second mission. */
  ghost predicate GivenNext(w: World, r: Id, m: Id, b: Id) {
    && KeyedById(w.cloud) && m in w.cloud.missions && m in w.cloud.commands
    && w.cloud.missions[m].missionId == m && w.cloud.missions[m].robotId == r
    && w.cloud.missions[m].lastAcknowledgedCommandSequence == None
    && w.cloud.commands[m] == DispatchedCommand(DriveRequest(m, r, 0), 1)
    && ActiveIn(w.cloud, b) && w.cloud.missions[b].robotId == r
    && w.cloud.processedAckIds == []
    && DriveAck(r, m) in w.sent
  }

  lemma ReachGivenNext(w: World, r: Id, m: Id, b: Id)
    requires GivenUp(w, r, m) && b != m
    ensures var a := PlatformInput(DispatchRequest(DriveRequest(b, r, 1000)));
            GivenNext(Next(w, a, DEFAULT_CONFIG), r, m, b) && ActionInOrder(w, a, DEFAULT_CONFIG)
  {
    hide Step, Run, KeyedById, PosePayload, TargetPose, Judge;
    var i := DispatchRequest(DriveRequest(b, r, 1000));
    PlatformStep(w, i, DEFAULT_CONFIG);
    StepKeyed(w.cloud, i, DEFAULT_CONFIG);
    DriveAccepted(w.cloud, b, r, 1000);
  }

  lemma ReachBoth(w: World, r: Id, m: Id, b: Id)
    requires GivenNext(w, r, m, b) && b != m
    ensures var n := Next(w, MessageArrives(DriveAck(r, m), 1010, m), DEFAULT_CONFIG).cloud;
            ActiveIn(n, m) && ActiveIn(n, b) && n.missions[m].robotId == r && n.missions[b].robotId == r
  {
    hide Step, Run, KeyedById, PosePayload;
    var ack := DriveAck(r, m).message.ack;
    AckArrives(w, DriveAck(r, m), 1010, m, DEFAULT_CONFIG);
    StepPuts(w.cloud, CommandAck(ack), DEFAULT_CONFIG);
  }

  /** A mission is dispatched and driven, and times out before its acknowledgement arrives. */
  function LateAcknowledgement(r: Id, m: Id, b: Id): seq<Action> {
    [StartEdge(r, r, r, 0), SayHello(r), MessageArrives(SAID_HELLO(r), 0, r)]
    + ([PlatformInput(DispatchRequest(DriveRequest(m, r, 0))), CommandArrives(m, r, 5, m),
        PlatformInput(MissionTimeout(TimeoutInput(m, 1000, m)))]
       + [PlatformInput(DispatchRequest(DriveRequest(b, r, 1000))), MessageArrives(DriveAck(r, m), 1010, m)])
  }

  /**
   Simulator edges do not always name their robot's own mission, not even when everything arrives in order: the
   acknowledgement of a mission that has timed out arrives while its robot has been given the next one, and the
   robot owns two active missions.
   */
  lemma LateAcknowledgementSplits(r: Id, m: Id, b: Id)
    requires b != m
    ensures ExecutionInOrder(INITIAL_WORLD, LateAcknowledgement(r, m, b), DEFAULT_CONFIG)
    ensures var n := Execute(INITIAL_WORLD, LateAcknowledgement(r, m, b), DEFAULT_CONFIG).cloud;
            ActiveIn(n, m) && ActiveIn(n, b) && n.missions[m].robotId == r && n.missions[b].robotId == r
  {
    hide Next, ActionInOrder, ActionUsesNew, Execute, ExecutionInOrder, ExecutionUsesNew, Connected, Issued, Driving;
    hide GivenUp, GivenNext, DriveRequest, ActiveIn;
    var a, c := PlatformInput(DispatchRequest(DriveRequest(m, r, 0))), CommandArrives(m, r, 5, m);
    var d := PlatformInput(MissionTimeout(TimeoutInput(m, 1000, m)));
    var e := PlatformInput(DispatchRequest(DriveRequest(b, r, 1000)));
    var f := MessageArrives(DriveAck(r, m), 1010, m);
    ReachFirst(r, [a, c, d] + [e, f]);
    var w :| && Connected(w, r)
             && Execute(INITIAL_WORLD, LateAcknowledgement(r, m, b), DEFAULT_CONFIG)
                == Execute(w, [a, c, d] + [e, f], DEFAULT_CONFIG)
             && (ExecutionInOrder(INITIAL_WORLD, LateAcknowledgement(r, m, b), DEFAULT_CONFIG)
                 <==> ExecutionInOrder(w, [a, c, d] + [e, f], DEFAULT_CONFIG));
    FirstActions(w, a, c, d, [e, f], DEFAULT_CONFIG);
    ConnectedEdge(w, r);
    var w1 := Next(w, a, DEFAULT_CONFIG);
    ReachIssued(w, r, m);
    ReachDriving(w1, r, m);
    var w2 := Next(w1, c, DEFAULT_CONFIG);
    ReachGivenUp(w2, r, m);
    var w3 := Next(w2, d, DEFAULT_CONFIG);
    ReachGivenNext(w3, r, m, b);
    var w4 := Next(w3, e, DEFAULT_CONFIG);
    ReachBoth(w4, r, m, b);
    EasyAction(w4, f, DEFAULT_CONFIG);
    assert [e, f] == [e] + ([f] + []);
    FirstAction(w3, e, [f] + [], DEFAULT_CONFIG);
    FirstAction(w4, f, [], DEFAULT_CONFIG);
    NoActions(Next(w4, f, DEFAULT_CONFIG), DEFAULT_CONFIG);
  }
}
