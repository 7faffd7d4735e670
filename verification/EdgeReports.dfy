/** What edges report in the composed system: always the mission of a motion command that was issued to them. */
module EdgeReports {
  import opened Texts
  import opened FleetState
  import opened FleetRun
  import opened CancelFinality
  import opened EdgeAgent
  import opened EdgeComposition

  /** The acknowledged command is a stored motion command of this mission for this robot. */
  ghost predicate Reporter(s: DomainState, robotId: Id, m: Id, acknowledged: Option<Id>) {
    && acknowledged.Some? && acknowledged.value in s.commands
    && s.commands[acknowledged.value].missionId == m && s.commands[acknowledged.value].robotId == robotId
    && s.commands[acknowledged.value].commandType.GoToPose?
  }

  ghost predicate ReportsOwn(w: World, e: Id) {
    e in w.edges && w.edges[e].currentMissionId.Some? ==>
      Reporter(w.cloud, e, w.edges[e].currentMissionId.value, w.edges[e].lastAcknowledgedCommandId)
  }

  ghost predicate SentReports(w: World, x: Sent) {
    match x.message
    case HandshakeMessage(h) =>
      h.robotId == x.from && h.reportedMissionId.Some?
      && Reporter(w.cloud, x.from, h.reportedMissionId.value, h.lastAcknowledgedCommandId)
    case AckMessage(ack) =>
      && ack.commandId in w.cloud.commands
      && (ack.status.Rejected? || (ack.status.Accepted? && w.cloud.commands[ack.commandId].robotId == x.from))
    case _ => true
  }

  ghost predicate Reports(w: World) {
    && (forall e: Id :: ReportsOwn(w, e))
    && (forall x | x in w.sent :: SentReports(w, x))
  }

  /** The only platform inputs that are constrained: a new dispatch names a new mission. */
  predicate ActionUsesNew(w: World, a: Action, config: DomainConfig) {
    a.PlatformInput? && FromPlatform(a.i) ==> UsesNewMission(w.cloud, a.i, config)
  }

  predicate ExecutionUsesNew(w: World, actions: seq<Action>, config: DomainConfig)
    decreases |actions|
  {
    actions == []
    || (ActionUsesNew(w, actions[0], config) && ExecutionUsesNew(Next(w, actions[0], config), actions[1..], config))
  }

  ghost predicate Tracked(w: World) {
    Sound(w) && OrderInv(w.cloud) && Reports(w)
  }

  lemma InitiallyTracked()
    ensures Tracked(INITIAL_WORLD)
  {
    InitiallySound();
    hide Sound;
  }

  /******* The cloud's part of an action *******/

  lemma {:induction false} NoDispatches(s: DomainState, inputs: seq<Input>, config: DomainConfig)
    requires forall i | i in inputs :: !i.DispatchRequest?
    ensures RunUsesNewMissions(s, inputs, config)
    decreases |inputs|
  {
    hide Step;
    if inputs != [] {
      NoDispatches(Step(s, inputs[0], config), inputs[1..], config);
    }
  }

  /** Messages from edges are no dispatches, so an action that uses a new mission id gives inputs that do. */
  lemma InputsUseNew(w: World, a: Action, config: DomainConfig)
    requires ActionUsesNew(w, a, config)
    ensures RunUsesNewMissions(w.cloud, CloudInputs(w, a), config)
  {
    hide Step, UsesNewMission;
    if a.PlatformInput? && FromPlatform(a.i) {
      assert [a.i][1..] == [];
    } else {
      NoDispatches(w.cloud, CloudInputs(w, a), config);
    }
  }

  lemma {:induction false} RunKeepsCommands(s: DomainState, inputs: seq<Input>, config: DomainConfig)
    requires KeyedById(s)
    ensures forall id | id in s.commands ::
              id in Run(s, inputs, config).commands && Run(s, inputs, config).commands[id] == s.commands[id]
    decreases |inputs|
  {
    hide Step, KeyedById;
    if inputs != [] {
      StepKeepsCommands(s, inputs[0], config);
      StepKeyed(s, inputs[0], config);
      RunKeepsCommands(Step(s, inputs[0], config), inputs[1..], config);
    }
  }

  /** More commands in the cloud change nothing about what was reported. */
  lemma ReportsStay(w: World, cloud: DomainState)
    requires Reports(w)
    requires forall id | id in w.cloud.commands :: id in cloud.commands && cloud.commands[id] == w.cloud.commands[id]
    ensures Reports(w.(cloud := cloud))
  {
    var n := w.(cloud := cloud);
    forall e: Id ensures ReportsOwn(n, e) {
      assert ReportsOwn(w, e);
    }
    forall x | x in n.sent ensures SentReports(n, x) {
      assert SentReports(w, x);
    }
  }

  /******* The edges' part *******/

  lemma EdgeActsReports(w: World, e: Id, step: EdgeStep)
    requires Reports(w) && e in w.edges
    requires step.state.currentMissionId.Some? ==>
               Reporter(w.cloud, e, step.state.currentMissionId.value, step.state.lastAcknowledgedCommandId)
    requires step.outbound.Some? ==> SentReports(w, Sent(e, step.outbound.value))
    ensures Reports(EdgeActs(w, e, step))
  {
    hide Reporter;
    var n := EdgeActs(w, e, step);
    forall x: Id ensures ReportsOwn(n, x) {
      assert ReportsOwn(w, x);
    }
    forall x | x in n.sent ensures SentReports(n, x) {
      assert x in w.sent ==> SentReports(w, x);
    }
  }

  lemma HandledReports(w: World, c: Id, e: Id, now: Time, ackId: Id)
    requires Sound(w) && Reports(w) && c in w.cloud.commands && e in w.edges && 1 <= w.cloud.commands[c].sequence
    ensures Reports(EdgeActs(w, e, HandleCommand(w.edges[e], w.cloud.commands[c], now, ackId)))
  {
    assert InStep(w, e) && ReportsOwn(w, e) && w.cloud.commands[c].commandId == c;
    hide Sound, Reports;
    EdgeActsReports(w, e, HandleCommand(w.edges[e], w.cloud.commands[c], now, ackId));
  }

  lemma NextReports(w: World, a: Action, config: DomainConfig)
    requires Sound(w) && Reports(w)
    ensures Reports(Next(w, a, config))
  {
    assert KeyedById(w.cloud);
    hide Step, Reports, Run, CloudInputs, KeyedById;
    match a
    case StartEdge(robotId, edgeSessionId, edgeAgentVersion, now) =>
      if robotId !in w.edges {
        StartReports(w, robotId, edgeSessionId, edgeAgentVersion, now);
      }
    case CommandArrives(commandId, e, now, ackId) =>
      if commandId in w.cloud.commands && e in w.edges && 1 <= w.cloud.commands[commandId].sequence {
        HandledReports(w, commandId, e, now, ackId);
      }
    case Heartbeat(e, now, eventId, pose) =>
      if e in w.edges {
        EdgeOf(w, e);
        EdgeActsReports(w, e, CreateTelemetry(w.edges[e], now, eventId, pose));
      }
    case SayHello(e) =>
      if e in w.edges {
        EdgeOf(w, e);
        EdgeActsReports(w, e, EdgeStep(w.edges[e], Some(CreateHello(w.edges[e]))));
      }
    case SendHandshake(e, now, sessionId) =>
      if e in w.edges {
        EdgeOf(w, e);
        EdgeActsReports(w, e, CreateHandshake(w.edges[e], now, sessionId));
      }
    case _ =>
      RunKeepsCommands(w.cloud, CloudInputs(w, a), config);
      ReportsStay(w, Run(w.cloud, CloudInputs(w, a), config));
  }

  lemma EdgeOf(w: World, e: Id)
    requires Sound(w) && Reports(w) && e in w.edges
    ensures w.edges[e].robotId == e && ReportsOwn(w, e)
  {
    assert InStep(w, e) && ReportsOwn(w, e);
  }

  lemma StartReports(w: World, robotId: Id, edgeSessionId: Id, edgeAgentVersion: Id, now: Time)
    requires Reports(w) && robotId !in w.edges
    ensures Reports(w.(edges := w.edges[robotId := InitialEdge(robotId, edgeSessionId, edgeAgentVersion, now)]))
  {
    hide Reporter;
    var n := w.(edges := w.edges[robotId := InitialEdge(robotId, edgeSessionId, edgeAgentVersion, now)]);
    forall e: Id ensures ReportsOwn(n, e) {
      assert ReportsOwn(w, e);
    }
    forall x | x in n.sent ensures SentReports(n, x) {
      assert SentReports(w, x);
    }
  }

  lemma NextTracked(w: World, a: Action, config: DomainConfig)
    requires Tracked(w) && ActionUsesNew(w, a, config)
    ensures Tracked(Next(w, a, config))
  {
    hide Sound, OrderInv, Reports, Next, CloudInputs, ActionUsesNew;
    NextSound(w, a, config);
    NextReports(w, a, config);
    NextIsRun(w, a, config);
    InputsUseNew(w, a, config);
    RunOrder(w.cloud, CloudInputs(w, a), config);
  }

  lemma {:induction false} ExecuteTracked(w: World, actions: seq<Action>, config: DomainConfig)
    requires Tracked(w) && ExecutionUsesNew(w, actions, config)
    ensures Tracked(Execute(w, actions, config))
    decreases |actions|
  {
    hide Next, Tracked, ActionUsesNew;
    if actions != [] {
      NextTracked(w, actions[0], config);
      ExecuteTracked(Next(w, actions[0], config), actions[1..], config);
    }
  }

  lemma {:induction false} ExecutionUsesNewSplit(w: World, before: seq<Action>, after: seq<Action>,
                                                 config: DomainConfig)
    requires ExecutionUsesNew(w, before + after, config)
    ensures ExecutionUsesNew(w, before, config)
    ensures ExecutionUsesNew(Execute(w, before, config), after, config)
    ensures Execute(w, before + after, config) == Execute(Execute(w, before, config), after, config)
    decreases |before|
  {
    hide Next, ActionUsesNew;
    if before == [] {
      assert before + after == after;
    } else {
      assert (before + after)[1..] == before[1..] + after;
      ExecutionUsesNewSplit(Next(w, before[0], config), before[1..], after, config);
    }
  }

  /** Every handshake an edge ever sends reports the mission of a stored motion command for its own robot. */
  lemma HandshakesReportCommands(actions: seq<Action>, config: DomainConfig, x: Sent)
    requires ExecutionUsesNew(INITIAL_WORLD, actions, config)
    requires x in Execute(INITIAL_WORLD, actions, config).sent && x.message.HandshakeMessage?
    ensures var h := x.message.handshake;
            h.robotId == x.from && h.reportedMissionId.Some?
            && Reporter(Execute(INITIAL_WORLD, actions, config).cloud, x.from, h.reportedMissionId.value,
                        h.lastAcknowledgedCommandId)
  {
    InitiallyTracked();
    ExecuteTracked(INITIAL_WORLD, actions, config);
    hide Execute, Sound, OrderInv, Reporter;
    assert SentReports(Execute(INITIAL_WORLD, actions, config), x);
  }
}
