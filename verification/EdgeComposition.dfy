/** The reducers composed with edges and a network that loses, repeats and reorders messages. */
module EdgeComposition {
  import opened Texts
  import opened FleetState
  import opened Dispatch
  import opened Reconnect
  import opened Decisions
  import opened FleetRun
  import opened Lifecycles
  import opened Sequences
  import opened EdgeAgent

  /** A message and the robot whose connection it was sent on. */
  datatype Sent = Sent(from: Id, message: EdgeMessage)

  /**
   The platform, the edges, and every message an edge has ever sent: any of them may reach the platform any
   number of times, in any order, or never. Likewise any stored command may reach any edge.
   */
  datatype World = World(cloud: DomainState, edges: map<Id, EdgeState>, sent: set<Sent>)

  datatype Action =
    | PlatformInput(i: Input)
    | StartEdge(robotId: Id, edgeSessionId: Id, edgeAgentVersion: Id, now: Time)
    | CommandArrives(commandId: Id, edgeId: Id, now: Time, ackId: Id)
    | Heartbeat(edgeId: Id, now: Time, eventId: Id, pose: Pose2D)
    | SayHello(edgeId: Id)
    | SendHandshake(edgeId: Id, now: Time, sessionId: Id)
    | MessageArrives(arrived: Sent, at: Time, correlationId: Id)

  /** The inputs that do not come from an edge. */
  predicate FromPlatform(i: Input) {
    i.DispatchRequest? || i.CancelRequest? || i.MissionTimeout? || i.FreshnessCheck? || i.ReconnectStarted?
  }

  /** A message about another robot than the one its connection belongs to is refused. */
  predicate MatchesConnection(m: Sent) {
    match m.message
    case HelloMessage(_) => true
    case AckMessage(ack) => ack.robotId == m.from
    case TelemetryMessage(t) => t.robotId == m.from
    case HandshakeMessage(h) => h.robotId == m.from
  }

  /** What the platform does with a message that arrives; a handshake may first begin the reconnect. */
  function InputsOf(cloud: DomainState, m: Sent, at: Time, correlationId: Id): seq<Input> {
    if !MatchesConnection(m) then []
    else
      match m.message
      case HelloMessage(hello) => [EdgeConnected(m.from, Some(hello), at)]
      case AckMessage(ack) => [CommandAck(ack)]
      case TelemetryMessage(t) => [RobotTelemetry(t)]
      case HandshakeMessage(h) =>
        (if h.robotId in cloud.robots && !cloud.robots[h.robotId].connectionState.RECONNECTING? then
           [ReconnectStarted(ReconnectInput(h.robotId, at, correlationId))]
         else [])
        + [ReconnectHandshake(h, Some(at), correlationId)]
  }

  function CloudInputs(w: World, a: Action): seq<Input> {
    match a
    case PlatformInput(i) => if FromPlatform(i) then [i] else []
    case MessageArrives(m, at, correlationId) =>
      if m in w.sent then InputsOf(w.cloud, m, at, correlationId) else []
    case _ => []
  }

  function EdgeActs(w: World, edgeId: Id, step: EdgeStep): World
    requires edgeId in w.edges
  {
    w.(edges := w.edges[edgeId := step.state],
       sent := if step.outbound.Some? then w.sent + {Sent(edgeId, step.outbound.value)} else w.sent)
  }

  /** A disabled action changes nothing. */
  function Next(w: World, a: Action, config: DomainConfig): World {
    match a
    case StartEdge(robotId, edgeSessionId, edgeAgentVersion, now) =>
      if robotId in w.edges then w
      else w.(edges := w.edges[robotId := InitialEdge(robotId, edgeSessionId, edgeAgentVersion, now)])
    case CommandArrives(commandId, edgeId, now, ackId) =>
      if commandId in w.cloud.commands && edgeId in w.edges && 1 <= w.cloud.commands[commandId].sequence then
        EdgeActs(w, edgeId, HandleCommand(w.edges[edgeId], w.cloud.commands[commandId], now, ackId))
      else w
    case Heartbeat(edgeId, now, eventId, pose) =>
      if edgeId in w.edges then EdgeActs(w, edgeId, CreateTelemetry(w.edges[edgeId], now, eventId, pose)) else w
    case SayHello(edgeId) =>
      if edgeId in w.edges then EdgeActs(w, edgeId, EdgeStep(w.edges[edgeId], Some(CreateHello(w.edges[edgeId]))))
      else w
    case SendHandshake(edgeId, now, sessionId) =>
      if edgeId in w.edges then EdgeActs(w, edgeId, CreateHandshake(w.edges[edgeId], now, sessionId)) else w
    case _ => w.(cloud := Run(w.cloud, CloudInputs(w, a), config))
  }

  function Execute(w: World, actions: seq<Action>, config: DomainConfig): World
    decreases |actions|
  {
    if actions == [] then w else Execute(Next(w, actions[0], config), actions[1..], config)
  }

  const INITIAL_WORLD := World(INITIAL_STATE, map[], {})

  /******* What the cloud knows of an edge *******/

  function CloudSeen(s: DomainState, r: Id): nat {
    if r in s.robots then s.robots[r].lastSeenCommandSequence else 0
  }

  function EdgeSeen(w: World, r: Id): nat {
    if r in w.edges then w.edges[r].lastSeenCommandSequence else 0
  }

  /** The sequence a message claims its edge has seen. */
  function Claim(m: EdgeMessage): nat {
    match m
    case HelloMessage(hello) => hello.lastSeenCommandSequence.Or(0)
    case AckMessage(ack) => ack.lastSeenCommandSequence
    case TelemetryMessage(t) => t.lastSeenCommandSequence
    case HandshakeMessage(h) => h.lastSeenCommandSequence
  }

  /** An acknowledgement names a stored command and echoes its robot and its sequence. */
  predicate Echoes(s: DomainState, ack: Ack) {
    ack.commandId in s.commands
    && s.commands[ack.commandId].robotId == ack.robotId
    && s.commands[ack.commandId].sequence == ack.lastSeenCommandSequence
  }

  /******* Steps of the cloud alone *******/

  /** How far an input may raise what the cloud has seen of robot `r`. */
  predicate RaisesOnlyTo(s: DomainState, i: Input, r: Id, bound: nat) {
    match i
    case CommandAck(ack) =>
      ack.commandId in s.commands && s.commands[ack.commandId].robotId == r ==> ack.lastSeenCommandSequence <= bound
    case RobotTelemetry(t) => t.robotId == r ==> t.lastSeenCommandSequence <= bound
    case ReconnectHandshake(h, now, correlationId) => h.robotId == r ==> h.lastSeenCommandSequence <= bound
    case EdgeConnected(robotId, hello, at) =>
      robotId == r && hello.Some? ==> hello.value.lastSeenCommandSequence.Or(0) <= bound
    case _ => true
  }

  /** What the cloud has seen of a robot never decreases, and only edge messages raise it. */
  lemma StepSeen(s: DomainState, i: Input, config: DomainConfig, r: Id)
    requires KeyedById(s)
    ensures CloudSeen(s, r) <= CloudSeen(Step(s, i, config), r)
    ensures forall bound: nat :: RaisesOnlyTo(s, i, r, bound) && CloudSeen(s, r) <= bound ==>
              CloudSeen(Step(s, i, config), r) <= bound
  {
    hide Step, Acceptable, Stale, Objection, Concerned, Deserved, KeyedById;
    ViewExact(s, i, r, config);
  }

  /** Stored commands stay, and a robot's next sequence never decreases. */
  lemma StepCommands(s: DomainState, i: Input, config: DomainConfig, r: Id)
    requires SequencesInv(s)
    ensures NextSequence(s, r) <= NextSequence(Step(s, i, config), r)
    ensures var n := Step(s, i, config);
            forall c | c in s.commands :: c in n.commands && n.commands[c] == s.commands[c]
  {
    StepPuts(s, i, config);
    StepIssues(s, i, config);
    StepKeepsCommands(s, i, config);
    if StepChanges(s, i, config).command.Some? {
      FirstSequencePositive(s, i, config);
    }
    hide Step, StepChanges, UsedOnce, CountersCover;
  }

  /******* The invariant of the composition *******/

  ghost predicate SentSound(w: World, m: Sent) {
    && m.from in w.edges
    && (MatchesConnection(m) ==> Claim(m.message) <= EdgeSeen(w, m.from))
    && (m.message.AckMessage? ==> Echoes(w.cloud, m.message.ack))
  }

  ghost predicate InStep(w: World, r: Id) {
    && CloudSeen(w.cloud, r) <= EdgeSeen(w, r) < NextSequence(w.cloud, r)
    && (r in w.edges ==> w.edges[r].robotId == r)
  }

  ghost predicate Sound(w: World) {
    && SequencesInv(w.cloud)
    && (forall r: Id :: InStep(w, r))
    && (forall m | m in w.sent :: SentSound(w, m))
  }

  lemma InitiallySound()
    ensures Sound(INITIAL_WORLD)
  {
    forall r: Id ensures InStep(INITIAL_WORLD, r) {
    }
  }

  /** An edge that has seen at most issued commands, and sends at most what it has seen. */
  lemma EdgeActsSound(w: World, edgeId: Id, step: EdgeStep)
    requires Sound(w) && edgeId in w.edges
    requires step.state.robotId == edgeId
    requires w.edges[edgeId].lastSeenCommandSequence <= step.state.lastSeenCommandSequence
    requires step.state.lastSeenCommandSequence < NextSequence(w.cloud, edgeId)
    requires step.outbound.Some? ==>
               var m := Sent(edgeId, step.outbound.value);
               && (MatchesConnection(m) ==> Claim(m.message) <= step.state.lastSeenCommandSequence)
               && (m.message.AckMessage? ==> Echoes(w.cloud, m.message.ack))
    ensures Sound(EdgeActs(w, edgeId, step))
  {
    hide SequencesInv, NextSequence, Echoes, MatchesConnection, Claim, CloudSeen;
    var n := EdgeActs(w, edgeId, step);
    forall r: Id ensures InStep(n, r) {
      assert InStep(w, r);
    }
    forall m | m in n.sent ensures SentSound(n, m) {
      assert m in w.sent ==> SentSound(w, m);
    }
  }

  lemma HandledCommand(w: World, c: Id, edgeId: Id, now: Time, ackId: Id)
    requires Sound(w) && c in w.cloud.commands && edgeId in w.edges && 1 <= w.cloud.commands[c].sequence
    ensures Sound(EdgeActs(w, edgeId, HandleCommand(w.edges[edgeId], w.cloud.commands[c], now, ackId)))
  {
    SequenceBelowCounter(w.cloud, c);
    assert InStep(w, edgeId);
    assert w.cloud.commands[c].commandId == c;
    EdgeActsSound(w, edgeId, HandleCommand(w.edges[edgeId], w.cloud.commands[c], now, ackId));
    hide Sound;
  }

  /** One cloud step that no edge message pushes past what the edges have seen. */
  lemma CloudStepSound(w: World, i: Input, config: DomainConfig)
    requires Sound(w)
    requires forall r: Id :: RaisesOnlyTo(w.cloud, i, r, EdgeSeen(w, r))
    ensures Sound(w.(cloud := Step(w.cloud, i, config)))
  {
    var n := w.(cloud := Step(w.cloud, i, config));
    StepSequences(w.cloud, i, config);
    forall r: Id ensures InStep(n, r) {
      assert InStep(w, r) && EdgeSeen(n, r) == EdgeSeen(w, r);
      assert RaisesOnlyTo(w.cloud, i, r, EdgeSeen(w, r));
      StepSeen(w.cloud, i, config, r);
      StepCommands(w.cloud, i, config, r);
      hide Step, SequencesInv, CloudSeen, NextSequence, RaisesOnlyTo, EdgeSeen;
    }
    forall m | m in n.sent ensures SentSound(n, m) {
      assert SentSound(w, m);
      StepCommands(w.cloud, i, config, m.from);
      hide Step, SequencesInv, NextSequence, RaisesOnlyTo, Sound;
    }
    hide Step, SequencesInv, InStep, SentSound;
  }

  lemma ArrivalRaises(w: World, m: Sent, i: Input, at: Time, correlationId: Id)
    requires Sound(w) && m in w.sent && MatchesConnection(m)
    requires match m.message
             case HelloMessage(hello) => i == EdgeConnected(m.from, Some(hello), at)
             case AckMessage(ack) => i == CommandAck(ack)
             case TelemetryMessage(t) => i == RobotTelemetry(t)
             case HandshakeMessage(h) => i == ReconnectHandshake(h, Some(at), correlationId)
    ensures forall r: Id :: RaisesOnlyTo(w.cloud, i, r, EdgeSeen(w, r))
  {
    assert SentSound(w, m);
    hide Sound, EdgeSeen;
  }

  lemma ArrivalSound(w: World, m: Sent, at: Time, correlationId: Id, config: DomainConfig)
    requires Sound(w) && m in w.sent && MatchesConnection(m)
    ensures Sound(w.(cloud := Run(w.cloud, InputsOf(w.cloud, m, at, correlationId), config)))
  {
    var inputs := InputsOf(w.cloud, m, at, correlationId);
    hide Step, Sound, MatchesConnection;
    if |inputs| == 2 {
      var mid := w.(cloud := Step(w.cloud, inputs[0], config));
      CloudStepSound(w, inputs[0], config);
      ArrivalRaises(mid, m, inputs[1], at, correlationId);
      CloudStepSound(mid, inputs[1], config);
      assert inputs == [inputs[0]] + [inputs[1]];
      RunFirst(w.cloud, inputs[0], [inputs[1]], config);
      RunOne(mid.cloud, inputs[1], config);
      assert w.(cloud := Step(mid.cloud, inputs[1], config)) == mid.(cloud := Step(mid.cloud, inputs[1], config));
    } else {
      ArrivalRaises(w, m, inputs[0], at, correlationId);
      CloudStepSound(w, inputs[0], config);
      assert inputs == [inputs[0]];
      RunOne(w.cloud, inputs[0], config);
    }
  }

  lemma NextSound(w: World, a: Action, config: DomainConfig)
    requires Sound(w)
    ensures Sound(Next(w, a, config))
  {
    hide Step;
    match a
    case StartEdge(robotId, edgeSessionId, edgeAgentVersion, now) =>
      if robotId !in w.edges {
        StartSound(w, robotId, edgeSessionId, edgeAgentVersion, now);
      }
    case CommandArrives(commandId, edgeId, now, ackId) =>
      if commandId in w.cloud.commands && edgeId in w.edges && 1 <= w.cloud.commands[commandId].sequence {
        HandledCommand(w, commandId, edgeId, now, ackId);
      }
    case Heartbeat(edgeId, now, eventId, pose) =>
      assert InStep(w, edgeId);
      if edgeId in w.edges {
        EdgeActsSound(w, edgeId, CreateTelemetry(w.edges[edgeId], now, eventId, pose));
      }
    case SayHello(edgeId) =>
      assert InStep(w, edgeId);
      if edgeId in w.edges {
        EdgeActsSound(w, edgeId, EdgeStep(w.edges[edgeId], Some(CreateHello(w.edges[edgeId]))));
      }
    case SendHandshake(edgeId, now, sessionId) =>
      assert InStep(w, edgeId);
      if edgeId in w.edges {
        EdgeActsSound(w, edgeId, CreateHandshake(w.edges[edgeId], now, sessionId));
      }
    case PlatformInput(i) =>
      if FromPlatform(i) {
        CloudStepSound(w, i, config);
        RunOne(w.cloud, i, config);
      }
    case MessageArrives(m, at, correlationId) =>
      if m in w.sent && MatchesConnection(m) {
        ArrivalSound(w, m, at, correlationId, config);
      }
  }

  lemma StartSound(w: World, robotId: Id, edgeSessionId: Id, edgeAgentVersion: Id, now: Time)
    requires Sound(w) && robotId !in w.edges
    ensures Sound(w.(edges := w.edges[robotId := InitialEdge(robotId, edgeSessionId, edgeAgentVersion, now)]))
  {
    var n := w.(edges := w.edges[robotId := InitialEdge(robotId, edgeSessionId, edgeAgentVersion, now)]);
    hide SequencesInv, NextSequence, Echoes, MatchesConnection, Claim, CloudSeen;
    forall r: Id ensures InStep(n, r) {
      assert InStep(w, r);
    }
    forall m | m in n.sent ensures SentSound(n, m) {
      assert SentSound(w, m);
    }
  }

  lemma {:induction false} ExecuteSound(w: World, actions: seq<Action>, config: DomainConfig)
    requires Sound(w)
    ensures Sound(Execute(w, actions, config))
    decreases |actions|
  {
    hide Next, Sound;
    if actions != [] {
      NextSound(w, actions[0], config);
      ExecuteSound(Next(w, actions[0], config), actions[1..], config);
    }
  }

  /**
   In every reachable state the cloud has seen no more of a robot than its edge has, and the edge has seen only
   sequences that were issued.
   */
  lemma CloudNeverOutrunsEdge(actions: seq<Action>, config: DomainConfig, r: Id)
    ensures var w := Execute(INITIAL_WORLD, actions, config);
            CloudSeen(w.cloud, r) <= EdgeSeen(w, r) < NextSequence(w.cloud, r)
  {
    InitiallySound();
    ExecuteSound(INITIAL_WORLD, actions, config);
    hide Execute, CloudSeen, EdgeSeen, NextSequence;
    assert InStep(Execute(INITIAL_WORLD, actions, config), r);
  }

  /** Every acknowledgement an edge ever sends names a stored command and carries that command's own sequence. */
  lemma AcksEchoCommands(actions: seq<Action>, config: DomainConfig, m: Sent)
    requires m in Execute(INITIAL_WORLD, actions, config).sent && m.message.AckMessage?
    ensures Echoes(Execute(INITIAL_WORLD, actions, config).cloud, m.message.ack)
  {
    InitiallySound();
    ExecuteSound(INITIAL_WORLD, actions, config);
    hide Execute, Echoes;
    assert SentSound(Execute(INITIAL_WORLD, actions, config), m);
  }

  /******* The platform inside the composition *******/

  /** All inputs the platform takes while the actions happen. */
  function CloudHistory(w: World, actions: seq<Action>, config: DomainConfig): seq<Input>
    decreases |actions|
  {
    if actions == [] then []
    else CloudInputs(w, actions[0]) + CloudHistory(Next(w, actions[0], config), actions[1..], config)
  }

  lemma NextIsRun(w: World, a: Action, config: DomainConfig)
    ensures Next(w, a, config).cloud == Run(w.cloud, CloudInputs(w, a), config)
  {
    hide Step;
  }

  /** So whatever holds of every run of the reducers holds of the platform in every composition. */
  lemma {:induction false} ExecutionIsRun(w: World, actions: seq<Action>, config: DomainConfig)
    ensures Execute(w, actions, config).cloud == Run(w.cloud, CloudHistory(w, actions, config), config)
    decreases |actions|
  {
    hide Step, Next, CloudInputs;
    if actions != [] {
      var n := Next(w, actions[0], config);
      NextIsRun(w, actions[0], config);
      ExecutionIsRun(n, actions[1..], config);
      RunAppend(w.cloud, CloudInputs(w, actions[0]), CloudHistory(n, actions[1..], config), config);
    }
  }

  lemma {:induction false} RunSeen(s: DomainState, inputs: seq<Input>, config: DomainConfig, r: Id)
    requires KeyedById(s)
    ensures KeyedById(Run(s, inputs, config))
    ensures CloudSeen(s, r) <= CloudSeen(Run(s, inputs, config), r)
    decreases |inputs|
  {
    hide Step, CloudSeen, KeyedById;
    if inputs != [] {
      StepSeen(s, inputs[0], config, r);
      StepKeyed(s, inputs[0], config);
      RunSeen(Step(s, inputs[0], config), inputs[1..], config, r);
    }
  }

  /** What the cloud has seen of a robot never decreases. */
  lemma CloudSeenNeverDecreases(before: seq<Action>, after: seq<Action>, config: DomainConfig, r: Id)
    ensures CloudSeen(Execute(INITIAL_WORLD, before, config).cloud, r)
         <= CloudSeen(Execute(Execute(INITIAL_WORLD, before, config), after, config).cloud, r)
  {
    var w := Execute(INITIAL_WORLD, before, config);
    ExecutionIsRun(INITIAL_WORLD, before, config);
    ExecutionIsRun(w, after, config);
    assert KeyedById(INITIAL_STATE);
    hide Run, Execute, CloudHistory, CloudSeen, KeyedById;
    RunSeen(INITIAL_STATE, CloudHistory(INITIAL_WORLD, before, config), config, r);
    RunSeen(w.cloud, CloudHistory(w, after, config), config, r);
  }
}
