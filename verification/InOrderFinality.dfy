/**
 Cancellation in the composed system when no edge is given a motion command after its cancellation, for example
 because commands reach each edge in order: then the sequence check of the reconnect decision does the rest, and
 nothing has to be asked of the handshakes.
 */
module InOrderFinality {
  import opened Texts
  import opened FleetState
  import opened Dispatch
  import opened Cancel
  import opened Acknowledge
  import opened Telemetry
  import opened Reconnect
  import opened Decisions
  import opened FleetRun
  import opened Sequences
  import opened CancelFinality
  import opened EdgeAgent
  import opened EdgeComposition
  import opened EdgeReports

  /** An edge has carried out this cancellation and said so. */
  ghost predicate CancelAck(s: DomainState, x: Sent) {
    x.message.AckMessage? && x.message.ack.status.Accepted? && x.message.ack.commandId in s.commands
    && s.commands[x.message.ack.commandId].commandType.CancelMission?
  }

  ghost predicate CarriedOut(w: World, k: Id, e: Id) {
    exists x :: x in w.sent && x.from == e && CancelAck(w.cloud, x) && x.message.ack.commandId == k
  }

  /**
   What may not happen to a command on its way to its own edge: a cancellation is not overtaken by a later command,
   unless it has been carried out before, and a motion command does not arrive once a cancellation of its mission
   has been seen. Anything may be lost, and anything else may be repeated.
   */
  ghost predicate NotOvertaken(w: World, c: Id, e: Id)
    requires c in w.cloud.commands && e in w.edges
  {
    var command, seen := w.cloud.commands[c], w.edges[e].lastSeenCommandSequence;
    && (command.commandType.CancelMission? ==> seen <= command.sequence || CarriedOut(w, c, e))
    && (command.commandType.GoToPose? ==>
          forall k | k in w.cloud.commands && w.cloud.commands[k].commandType.CancelMission?
                     && w.cloud.commands[k].missionId == command.missionId ::
            seen < w.cloud.commands[k].sequence)
  }

  ghost predicate ActionHeeds(w: World, a: Action, config: DomainConfig) {
    && ActionUsesNew(w, a, config)
    && (a.CommandArrives? && a.commandId in w.cloud.commands && a.edgeId in w.edges
        && w.cloud.commands[a.commandId].robotId == a.edgeId ==>
          NotOvertaken(w, a.commandId, a.edgeId))
  }

  ghost predicate ExecutionHeeds(w: World, actions: seq<Action>, config: DomainConfig)
    decreases |actions|
  {
    actions == []
    || (ActionHeeds(w, actions[0], config) && ExecutionHeeds(Next(w, actions[0], config), actions[1..], config))
  }

  /******* What the edges have carried out *******/

  /** Since then it has seen that sequence and has not gone back to the mission. */
  ghost predicate LeftBehind(w: World, x: Sent) {
    CancelAck(w.cloud, x) && x.from in w.edges ==>
      var k := w.cloud.commands[x.message.ack.commandId];
      k.sequence <= w.edges[x.from].lastSeenCommandSequence
      && w.edges[x.from].currentMissionId != Some(k.missionId)
  }

  /** What it ever reported about the mission it had reported before. */
  ghost predicate ReportedBefore(w: World, x: Sent, y: Sent) {
    CancelAck(w.cloud, x) && y.message.HandshakeMessage? && y.from == x.from
    && y.message.handshake.reportedMissionId == Some(w.cloud.commands[x.message.ack.commandId].missionId) ==>
      y.message.handshake.lastSeenCommandSequence < w.cloud.commands[x.message.ack.commandId].sequence
  }

  ghost predicate Ordered(w: World) {
    && (forall x | x in w.sent :: LeftBehind(w, x))
    && (forall x, y | x in w.sent && y in w.sent :: ReportedBefore(w, x, y))
  }

  /** One edge acts: what it must respect of what it has said before. */
  lemma EdgeActsOrdered(w: World, e: Id, step: EdgeStep)
    requires Ordered(w) && e in w.edges
    requires w.edges[e].lastSeenCommandSequence <= step.state.lastSeenCommandSequence
    requires forall x | x in w.sent && x.from == e && CancelAck(w.cloud, x) ::
               step.state.currentMissionId != Some(w.cloud.commands[x.message.ack.commandId].missionId)
    requires step.outbound.Some? ==>
               var z := Sent(e, step.outbound.value);
               && (CancelAck(w.cloud, z) ==>
                     var k := w.cloud.commands[z.message.ack.commandId];
                     k.sequence <= step.state.lastSeenCommandSequence
                     && step.state.currentMissionId != Some(k.missionId))
               && (forall y | y in w.sent :: ReportedBefore(w, z, y) && ReportedBefore(w, y, z))
    ensures Ordered(EdgeActs(w, e, step))
  {
    hide CancelAck;
    var n := EdgeActs(w, e, step);
    forall x | x in n.sent ensures LeftBehind(n, x) {
      assert x in w.sent ==> LeftBehind(w, x);
    }
    forall x, y | x in n.sent && y in n.sent ensures ReportedBefore(n, x, y) {
      if x in w.sent && y in w.sent {
        assert ReportedBefore(w, x, y);
      } else if x in w.sent {
        assert ReportedBefore(w, x, Sent(e, step.outbound.value));
      } else if y in w.sent {
        assert ReportedBefore(w, Sent(e, step.outbound.value), y);
      } else {
        BothAtOnce(n, Sent(e, step.outbound.value));
      }
    }
  }

  /** A message is not both. */
  lemma BothAtOnce(w: World, x: Sent)
    ensures ReportedBefore(w, x, x)
  {
  }

  lemma NoteOrdered(w: World, e: Id, step: EdgeStep)
    requires Ordered(w) && e in w.edges
    requires w.edges[e].lastSeenCommandSequence <= step.state.lastSeenCommandSequence
    requires step.state.currentMissionId == w.edges[e].currentMissionId
    requires step.outbound.Some? ==>
               !step.outbound.value.HandshakeMessage?
               && (step.outbound.value.AckMessage? ==> !step.outbound.value.ack.status.Accepted?)
    ensures Ordered(EdgeActs(w, e, step))
  {
    forall x | x in w.sent && x.from == e && CancelAck(w.cloud, x)
      ensures step.state.currentMissionId != Some(w.cloud.commands[x.message.ack.commandId].missionId)
    {
      assert LeftBehind(w, x);
    }
    EdgeActsOrdered(w, e, step);
  }

  /** An edge carries out a cancellation again, or has claimed only smaller sequences so far. */
  lemma CancelOrdered(w: World, e: Id, c: Command, now: Time, ackId: Id)
    requires Tracked(w) && Ordered(w) && e in w.edges && c.commandId in w.cloud.commands
    requires w.cloud.commands[c.commandId] == c && c.robotId == e && c.commandType.CancelMission? && 1 <= c.sequence
    requires w.edges[e].lastSeenCommandSequence < c.sequence || CarriedOut(w, c.commandId, e)
    ensures Ordered(EdgeActs(w, e, HandleCommand(w.edges[e], c, now, ackId)))
  {
    EdgeOf(w, e);
    var step := HandleCommand(w.edges[e], c, now, ackId);
    var z := Sent(e, step.outbound.value);
    assert step.state.currentMissionId == None && c.sequence <= step.state.lastSeenCommandSequence;
    forall y | y in w.sent ensures ReportedBefore(w, z, y) && ReportedBefore(w, y, z) {
      if y.message.HandshakeMessage? {
        Claims(w, y);
        if CarriedOut(w, c.commandId, e) {
          var x :| x in w.sent && x.from == e && CancelAck(w.cloud, x) && x.message.ack.commandId == c.commandId;
          assert ReportedBefore(w, x, y);
        }
      }
    }
    hide Tracked, Ordered, HandleCommand;
    EdgeActsOrdered(w, e, step);
  }

  lemma Claims(w: World, y: Sent)
    requires Tracked(w) && y in w.sent && y.message.HandshakeMessage?
    ensures y.from in w.edges
    ensures y.message.handshake.lastSeenCommandSequence <= w.edges[y.from].lastSeenCommandSequence
  {
    assert SentSound(w, y) && SentReports(w, y);
  }

  /** A motion command that arrives is for a mission whose cancellation the edge has not carried out. */
  lemma MotionOrdered(w: World, e: Id, c: Command, now: Time, ackId: Id)
    requires Tracked(w) && Ordered(w) && e in w.edges && c.commandId in w.cloud.commands
    requires w.cloud.commands[c.commandId] == c && c.robotId == e && c.commandType.GoToPose? && 1 <= c.sequence
    requires NotOvertaken(w, c.commandId, e)
    ensures Ordered(EdgeActs(w, e, HandleCommand(w.edges[e], c, now, ackId)))
  {
    EdgeOf(w, e);
    var step := HandleCommand(w.edges[e], c, now, ackId);
    forall x | x in w.sent && x.from == e && CancelAck(w.cloud, x)
      ensures step.state.currentMissionId != Some(w.cloud.commands[x.message.ack.commandId].missionId)
    {
      assert LeftBehind(w, x);
    }
    var z := Sent(e, step.outbound.value);
    assert !CancelAck(w.cloud, z);
    hide Tracked, Ordered, HandleCommand;
    EdgeActsOrdered(w, e, step);
  }

  lemma CancelIsLast(s: DomainState, c: Id, k: Id)
    requires OrderInv(s) && c in s.commands && k in s.commands
    requires s.commands[k].commandType.CancelMission? && !s.commands[c].commandType.CancelMission?
    ensures s.commands[c].missionId == s.commands[k].missionId ==> s.commands[c].sequence < s.commands[k].sequence
  {
  }

  /** An edge that has last seen the sequence of a cancellation has carried it out, whatever else arrived. */
  ghost predicate Answered(w: World) {
    forall e, k | e in w.edges && k in w.cloud.commands && w.cloud.commands[k].robotId == e
                  && w.cloud.commands[k].commandType.CancelMission?
                  && w.cloud.commands[k].sequence == w.edges[e].lastSeenCommandSequence ::
      CarriedOut(w, k, e)
  }

  lemma CarriedOutStays(w: World, n: World, k: Id, e: Id)
    requires CarriedOut(w, k, e) && w.sent <= n.sent
    requires forall id | id in w.cloud.commands ::
               id in n.cloud.commands && n.cloud.commands[id] == w.cloud.commands[id]
    ensures CarriedOut(n, k, e)
  {
    var x :| x in w.sent && x.from == e && CancelAck(w.cloud, x) && x.message.ack.commandId == k;
    assert x in n.sent && CancelAck(n.cloud, x);
  }

  /** An action of an edge that sees nothing new. */
  lemma AnsweredStays(w: World, n: World)
    requires Answered(w) && w.sent <= n.sent && n.cloud == w.cloud
    requires forall e | e in n.edges ::
               e in w.edges && n.edges[e].lastSeenCommandSequence == w.edges[e].lastSeenCommandSequence
    ensures Answered(n)
  {
    hide CarriedOut;
    forall e, k | e in n.edges && k in n.cloud.commands && n.cloud.commands[k].robotId == e
                  && n.cloud.commands[k].commandType.CancelMission?
                  && n.cloud.commands[k].sequence == n.edges[e].lastSeenCommandSequence
      ensures CarriedOut(n, k, e)
    {
      CarriedOutStays(w, n, k, e);
    }
  }

  /** Sequences are used once, so what an edge sees last is the command it has just been given. */
  lemma ArrivalAnswered(w: World, c: Id, e: Id, now: Time, ackId: Id)
    requires Tracked(w) && Answered(w) && c in w.cloud.commands && e in w.edges && 1 <= w.cloud.commands[c].sequence
    ensures Answered(EdgeActs(w, e, HandleCommand(w.edges[e], w.cloud.commands[c], now, ackId)))
  {
    var command := w.cloud.commands[c];
    var step := HandleCommand(w.edges[e], command, now, ackId);
    var n := EdgeActs(w, e, step);
    KeyedCommand(w, c);
    EdgeOf(w, e);
    hide CarriedOut, Tracked;
    forall f, k | f in n.edges && k in n.cloud.commands && n.cloud.commands[k].robotId == f
                  && n.cloud.commands[k].commandType.CancelMission?
                  && n.cloud.commands[k].sequence == n.edges[f].lastSeenCommandSequence
      ensures CarriedOut(n, k, f)
    {
      if f == e && command.robotId == e && w.edges[e].lastSeenCommandSequence < command.sequence {
        UsedBy(w, k, c);
        JustCarriedOut(n, c, e, step.outbound.value);
      } else {
        CarriedOutStays(w, n, k, f);
      }
    }
  }

  lemma JustCarriedOut(n: World, c: Id, e: Id, message: EdgeMessage)
    requires Sent(e, message) in n.sent && CancelAck(n.cloud, Sent(e, message)) && message.ack.commandId == c
    ensures CarriedOut(n, c, e)
  {
  }

  lemma UsedBy(w: World, k: Id, c: Id)
    requires Tracked(w) && k in w.cloud.commands && c in w.cloud.commands
    requires w.cloud.commands[k].robotId == w.cloud.commands[c].robotId
    requires w.cloud.commands[k].sequence == w.cloud.commands[c].sequence
    ensures k == c
  {
  }

  /** A new edge has seen nothing, and every command has a positive sequence. */
  lemma StartAnswered(w: World, robotId: Id, edgeSessionId: Id, edgeAgentVersion: Id, now: Time)
    requires Tracked(w) && Answered(w) && robotId !in w.edges
    ensures Answered(w.(edges := w.edges[robotId := InitialEdge(robotId, edgeSessionId, edgeAgentVersion, now)]))
  {
    hide CarriedOut, Tracked;
    var n := w.(edges := w.edges[robotId := InitialEdge(robotId, edgeSessionId, edgeAgentVersion, now)]);
    forall e, k | e in n.edges && k in n.cloud.commands && n.cloud.commands[k].robotId == e
                  && n.cloud.commands[k].commandType.CancelMission?
                  && n.cloud.commands[k].sequence == n.edges[e].lastSeenCommandSequence
      ensures CarriedOut(n, k, e)
    {
      PositiveSequence(w, k);
      CarriedOutStays(w, n, k, e);
    }
  }

  lemma PositiveSequence(w: World, k: Id)
    requires Tracked(w) && k in w.cloud.commands
    ensures 1 <= w.cloud.commands[k].sequence
  {
    var s, r := w.cloud, w.cloud.commands[k].robotId;
    var first :| GaplessFrom(s, r, first);
    assert s.commands[k].sequence in Used(s, r);
  }

  /** A command that a run issues is at or above the robot's next sequence before the run. */
  lemma {:induction false} RunIssuesAbove(s: DomainState, inputs: seq<Input>, config: DomainConfig, k: Id)
    requires SequencesInv(s) && k in Run(s, inputs, config).commands && k !in s.commands
    ensures var c := Run(s, inputs, config).commands[k]; NextSequence(s, c.robotId) <= c.sequence
    decreases |inputs|
  {
    hide Step, SequencesInv, NextSequence;
    if inputs != [] {
      var n := Step(s, inputs[0], config);
      StepSequences(s, inputs[0], config);
      KeyedSequences(n);
      RunKeepsCommands(n, inputs[1..], config);
      var c := Run(s, inputs, config).commands[k];
      StepCommands(s, inputs[0], config, c.robotId);
      if k in n.commands {
        StepIssuesAbove(s, inputs[0], config, k);
      } else {
        RunIssuesAbove(n, inputs[1..], config, k);
      }
    }
  }

  lemma KeyedSequences(s: DomainState)
    requires SequencesInv(s)
    ensures KeyedById(s)
  {
  }

  lemma StepIssuesAbove(s: DomainState, i: Input, config: DomainConfig, k: Id)
    requires SequencesInv(s) && k in Step(s, i, config).commands && k !in s.commands
    ensures var c := Step(s, i, config).commands[k]; NextSequence(s, c.robotId) <= c.sequence
  {
    hide Step, StepChanges, UsedOnce, CountersCover, GaplessFrom;
    StepPuts(s, i, config);
    StepIssues(s, i, config);
    FirstSequencePositive(s, i, config);
  }

  /** Commands that are issued later are ones that no edge has seen. */
  lemma CloudAnswered(w: World, inputs: seq<Input>, config: DomainConfig)
    requires Tracked(w) && Answered(w)
    ensures Answered(w.(cloud := Run(w.cloud, inputs, config)))
  {
    hide CarriedOut, Run, NextSequence, EdgeSeen, CloudSeen, SequencesInv, OrderInv;
    TrackedKeyed(w);
    RunKeepsCommands(w.cloud, inputs, config);
    var n := w.(cloud := Run(w.cloud, inputs, config));
    forall e, k | e in n.edges && k in n.cloud.commands && n.cloud.commands[k].robotId == e
                  && n.cloud.commands[k].commandType.CancelMission?
                  && n.cloud.commands[k].sequence == n.edges[e].lastSeenCommandSequence
      ensures CarriedOut(n, k, e)
    {
      if k in w.cloud.commands {
        CarriedOutStays(w, n, k, e);
      } else {
        SeenBelowNext(w, e);
        RunIssuesAbove(w.cloud, inputs, config, k);
      }
    }
  }

  lemma SeenBelowNext(w: World, e: Id)
    requires Tracked(w) && e in w.edges
    ensures w.edges[e].lastSeenCommandSequence < NextSequence(w.cloud, e)
  {
    assert InStep(w, e);
  }

  /** Every action keeps this, in order or not. */
  lemma NextAnswered(w: World, a: Action, config: DomainConfig)
    requires Tracked(w) && Answered(w)
    ensures Answered(Next(w, a, config))
  {
    hide Step, Run, CloudInputs, Tracked, Answered;
    match a
    case StartEdge(robotId, edgeSessionId, edgeAgentVersion, now) =>
      if robotId !in w.edges {
        StartAnswered(w, robotId, edgeSessionId, edgeAgentVersion, now);
      }
    case CommandArrives(c, e, now, ackId) =>
      if c in w.cloud.commands && e in w.edges && 1 <= w.cloud.commands[c].sequence {
        ArrivalAnswered(w, c, e, now, ackId);
      }
    case PlatformInput(_) => CloudAnswered(w, CloudInputs(w, a), config);
    case MessageArrives(_, _, _) => CloudAnswered(w, CloudInputs(w, a), config);
    case _ => AnsweredStays(w, Next(w, a, config));
  }

  lemma ArrivalOrdered(w: World, c: Id, e: Id, now: Time, ackId: Id)
    requires Tracked(w) && Ordered(w) && Answered(w)
    requires c in w.cloud.commands && e in w.edges && 1 <= w.cloud.commands[c].sequence
    requires w.cloud.commands[c].robotId == e ==> NotOvertaken(w, c, e)
    ensures Ordered(EdgeActs(w, e, HandleCommand(w.edges[e], w.cloud.commands[c], now, ackId)))
  {
    var command := w.cloud.commands[c];
    KeyedCommand(w, c);
    EdgeOf(w, e);
    hide Tracked, Ordered;
    if command.robotId == e && command.commandType.CancelMission? {
      assert w.edges[e].lastSeenCommandSequence < command.sequence || CarriedOut(w, c, e);
      CancelOrdered(w, e, command, now, ackId);
    } else if command.robotId == e && command.commandType.GoToPose? {
      MotionOrdered(w, e, command, now, ackId);
    } else {
      NoteOrdered(w, e, HandleCommand(w.edges[e], command, now, ackId));
    }
  }

  lemma KeyedCommand(w: World, c: Id)
    requires Tracked(w) && c in w.cloud.commands
    ensures w.cloud.commands[c].commandId == c
  {
  }

  /** A handshake reports the mission the edge works on, so no cancellation of it has been carried out. */
  lemma HandshakeOrdered(w: World, e: Id, now: Time, sessionId: Id)
    requires Tracked(w) && Ordered(w) && e in w.edges
    ensures Ordered(EdgeActs(w, e, CreateHandshake(w.edges[e], now, sessionId)))
  {
    EdgeOf(w, e);
    var step := CreateHandshake(w.edges[e], now, sessionId);
    forall x | x in w.sent && x.from == e && CancelAck(w.cloud, x)
      ensures step.state.currentMissionId != Some(w.cloud.commands[x.message.ack.commandId].missionId)
    {
      assert LeftBehind(w, x);
    }
    hide Tracked, Ordered;
    EdgeActsOrdered(w, e, step);
  }

  lemma StartOrdered(w: World, robotId: Id, edgeSessionId: Id, edgeAgentVersion: Id, now: Time)
    requires Sound(w) && Ordered(w) && robotId !in w.edges
    ensures Ordered(w.(edges := w.edges[robotId := InitialEdge(robotId, edgeSessionId, edgeAgentVersion, now)]))
  {
    hide CancelAck;
    var n := w.(edges := w.edges[robotId := InitialEdge(robotId, edgeSessionId, edgeAgentVersion, now)]);
    forall x | x in n.sent ensures LeftBehind(n, x) {
      assert LeftBehind(w, x) && SentSound(w, x);
    }
    forall x, y | x in n.sent && y in n.sent ensures ReportedBefore(n, x, y) {
      assert ReportedBefore(w, x, y);
    }
  }

  /** New commands are not ones that an edge has already acknowledged. */
  lemma OrderedStays(w: World, cloud: DomainState)
    requires Reports(w) && Ordered(w)
    requires forall id | id in w.cloud.commands :: id in cloud.commands && cloud.commands[id] == w.cloud.commands[id]
    ensures Ordered(w.(cloud := cloud))
  {
    var n := w.(cloud := cloud);
    forall x | x in n.sent ensures LeftBehind(n, x) {
      assert LeftBehind(w, x) && SentReports(w, x);
    }
    forall x, y | x in n.sent && y in n.sent ensures ReportedBefore(n, x, y) {
      assert ReportedBefore(w, x, y) && SentReports(w, x);
    }
  }

  lemma NextOrdered(w: World, a: Action, config: DomainConfig)
    requires Tracked(w) && Ordered(w) && Answered(w) && ActionHeeds(w, a, config)
    ensures Ordered(Next(w, a, config))
  {
    hide Step, Run, CloudInputs, Ordered, Reports, Sound, OrderInv;
    match a
    case StartEdge(robotId, edgeSessionId, edgeAgentVersion, now) =>
      if robotId !in w.edges {
        StartOrdered(w, robotId, edgeSessionId, edgeAgentVersion, now);
      }
    case CommandArrives(c, e, now, ackId) =>
      if c in w.cloud.commands && e in w.edges && 1 <= w.cloud.commands[c].sequence {
        ArrivalOrdered(w, c, e, now, ackId);
      }
    case Heartbeat(e, now, eventId, pose) =>
      if e in w.edges {
        NoteOrdered(w, e, CreateTelemetry(w.edges[e], now, eventId, pose));
      }
    case SayHello(e) =>
      if e in w.edges {
        NoteOrdered(w, e, EdgeStep(w.edges[e], Some(CreateHello(w.edges[e]))));
      }
    case SendHandshake(e, now, sessionId) =>
      if e in w.edges {
        HandshakeOrdered(w, e, now, sessionId);
      }
    case _ =>
      TrackedKeyed(w);
      RunKeepsCommands(w.cloud, CloudInputs(w, a), config);
      OrderedStays(w, Run(w.cloud, CloudInputs(w, a), config));
  }

  lemma TrackedKeyed(w: World)
    requires Tracked(w)
    ensures KeyedById(w.cloud) && OrderInv(w.cloud)
  {
  }

  /******* What the cloud knows of a mission *******/

  /** The best sequence the cloud has for a mission is that of its latest command. */
  ghost predicate LatestKnown(s: DomainState) {
    forall c | c in s.commands && s.commands[c].missionId in s.missions ::
      var last := s.missions[s.commands[c].missionId].lastCommandSequence;
      last.Some? && s.commands[c].sequence <= last.value
  }

  /** A new command of a known mission comes after all its others. */
  lemma IssuedLater(s: DomainState, i: Input, config: DomainConfig, x: Id)
    requires OrderInv(s) && UsesNewMission(s, i, config) && x in s.commands
    ensures var ch := StepChanges(s, i, config);
            ch.command.Some? && ch.command.value.missionId == s.commands[x].missionId ==>
              s.commands[x].sequence < ch.command.value.sequence
  {
    hide StepChanges, UsesNewMission;
    StepIssues(s, i, config);
    FollowingWrites(s, i, config);
    SequenceBelowCounter(s, x);
    hide SequencesInv;
  }

  /** A mission snapshot without a new command keeps its sequence, or is one for which there are no commands. */
  lemma RewrittenKeeps(s: DomainState, i: Input, config: DomainConfig)
    requires OrderInv(s) && UsesNewMission(s, i, config)
    ensures var ch := StepChanges(s, i, config);
            ch.mission.Some? && ch.command.None? ==>
              var m := ch.mission.value;
              if m.missionId in s.missions then m.lastCommandSequence == s.missions[m.missionId].lastCommandSequence
              else forall c | c in s.commands :: s.commands[c].missionId != m.missionId
  {
    hide SequencesInv, CancelsLast, Judge, DispatchSignature, CancelSignature, TargetPose, JudgeCancel, FreshKey;
    WritesExactly(s, i, config);
    hide DecideReconciliation, AckedRobot, ReportedRobot, ReconciledRobot, FreshConnection;
    assert KeyedById(s) by {
      OrderedKeyed(s);
    }
    StepMissions(s, i, config);
  }

  lemma OrderedKeyed(s: DomainState)
    requires OrderInv(s)
    ensures KeyedById(s)
  {
  }

  lemma StepLatest(s: DomainState, i: Input, config: DomainConfig)
    requires OrderInv(s) && LatestKnown(s) && UsesNewMission(s, i, config)
    ensures LatestKnown(Step(s, i, config))
  {
    hide Step, StepChanges, OrderInv, UsesNewMission;
    var n, ch := Step(s, i, config), StepChanges(s, i, config);
    OrderedKeyed(s);
    StepPuts(s, i, config);
    StepIssues(s, i, config);
    RewrittenKeeps(s, i, config);
    forall c | c in n.commands && n.commands[c].missionId in n.missions
      ensures var last := n.missions[n.commands[c].missionId].lastCommandSequence;
              last.Some? && n.commands[c].sequence <= last.value
    {
      if c in s.commands {
        IssuedLater(s, i, config, c);
        CommandHasMission(s, c);
      }
    }
  }

  lemma CommandHasMission(s: DomainState, c: Id)
    requires OrderInv(s) && c in s.commands
    ensures s.commands[c].missionId in s.missions
    ensures s.missions[s.commands[c].missionId].robotId == s.commands[c].robotId
  {
  }

  lemma {:induction false} RunLatest(s: DomainState, inputs: seq<Input>, config: DomainConfig)
    requires OrderInv(s) && LatestKnown(s) && RunUsesNewMissions(s, inputs, config)
    ensures LatestKnown(Run(s, inputs, config))
    decreases |inputs|
  {
    hide Step, OrderInv, LatestKnown, UsesNewMission;
    if inputs != [] {
      StepOrder(s, inputs[0], config);
      StepLatest(s, inputs[0], config);
      RunLatest(Step(s, inputs[0], config), inputs[1..], config);
    }
  }

  /** The mission is closed and the last command it has acknowledged is one of its cancellations. */
  ghost predicate CancelledFor(s: DomainState, m: Id) {
    && Closed(s, m)
    && s.missions[m].lastAcknowledgedCommandId.Some?
    && s.missions[m].lastAcknowledgedCommandId.value in s.commands
    && s.commands[s.missions[m].lastAcknowledgedCommandId.value].commandType.CancelMission?
  }

  /** What a step writes about a closed mission it leaves closed: at most another acknowledged cancellation. */
  lemma AcknowledgedWrites(s: DomainState, i: Input, m: Id, config: DomainConfig)
    requires KeyedById(s) && Closed(s, m) && LeavesClosed(s, i, m, config)
    ensures var ch := StepChanges(s, i, config);
            ch.mission.Some? && ch.mission.value.missionId == m ==>
              var last := ch.mission.value.lastAcknowledgedCommandId;
              || last == s.missions[m].lastAcknowledgedCommandId
              || (last.Some? && last.value in s.commands && s.commands[last.value].commandType.CancelMission?)
  {
    CancelNeedsActive(s, i, config);
    WritesExactly(s, i, config);
    hide DispatchSignature, CancelSignature, TargetPose, PayloadIssues, AssignedRobot, AckedRobot, ReportedRobot;
    hide ReconciledRobot, FreshConnection, Judge, JudgeCancel, ReasonPayload, DecideReconciliation, FreshKey;
  }

  lemma StepCancelled(s: DomainState, i: Input, m: Id, config: DomainConfig)
    requires KeyedById(s) && CancelledFor(s, m) && LeavesClosed(s, i, m, config)
    ensures CancelledFor(Step(s, i, config), m)
  {
    hide Step, StepChanges, LeavesClosed, Closed;
    StepPuts(s, i, config);
    StepKeepsCommands(s, i, config);
    StepClosed(s, i, m, config);
    AcknowledgedWrites(s, i, m, config);
    ClosedIsInactive(s, m);
  }

  /** The robot has seen less than the cloud has sent, and acknowledged something else than the cloud knows. */
  ghost predicate Lags(s: DomainState, h: HandshakeReport, m: Id) {
    && m in s.missions && s.missions[m].lastCommandSequence.Some?
    && h.lastSeenCommandSequence < s.missions[m].lastCommandSequence.value
    && h.lastAcknowledgedCommandId != s.missions[m].lastAcknowledgedCommandId
  }

  lemma LaggingIsReviewed(s: DomainState, h: HandshakeReport, m: Id)
    requires Lags(s, h, m) && h.reportedMissionId == Some(m)
    ensures !Resumes(s, h)
  {
    hide ReportsAnother, ClaimsExpired;
  }

  /** Beginning a reconnect does not touch an inactive mission. */
  lemma ReconnectSkips(s: DomainState, r: ReconnectInput, m: Id, config: DomainConfig)
    requires KeyedById(s) && m in s.missions && !ActiveIn(s, m)
    ensures var n := Step(s, ReconnectStarted(r), config);
            m in n.missions && n.missions[m] == s.missions[m]
  {
    hide Step;
    StepPuts(s, ReconnectStarted(r), config);
  }

  /******* The theorem *******/

  /** An edge has carried out a cancellation of the mission, and the cloud has taken its acknowledgement. */
  ghost predicate Cancelled(w: World, x: Sent, m: Id) {
    && x in w.sent && CancelAck(w.cloud, x) && w.cloud.commands[x.message.ack.commandId].missionId == m
    && CancelledFor(w.cloud, m)
  }

  /** A handshake that reports the mission was sent before its robot carried out the cancellation. */
  lemma ReporterLags(w: World, x: Sent, y: Sent, m: Id)
    requires Tracked(w) && Ordered(w) && LatestKnown(w.cloud) && Cancelled(w, x, m)
    requires y in w.sent && y.message.HandshakeMessage? && y.message.handshake.reportedMissionId == Some(m)
    ensures Lags(w.cloud, y.message.handshake, m)
  {
    var h, k := y.message.handshake, x.message.ack.commandId;
    assert SentReports(w, x) && SentReports(w, y);
    CommandHasMission(w.cloud, k);
    CommandHasMission(w.cloud, h.lastAcknowledgedCommandId.value);
    assert y.from == x.from;
    assert ReportedBefore(w, x, y);
    hide Tracked, Ordered, Closed, SentReports;
  }

  lemma HandshakeCancelled(w: World, x: Sent, y: Sent, m: Id, at: Time, correlationId: Id, config: DomainConfig)
    requires Tracked(w) && Ordered(w) && LatestKnown(w.cloud) && Cancelled(w, x, m)
    requires y in w.sent && y.message.HandshakeMessage?
    ensures CancelledFor(Run(w.cloud, InputsOf(w.cloud, y, at, correlationId), config), m)
  {
    var s, h := w.cloud, y.message.handshake;
    var inputs := InputsOf(s, y, at, correlationId);
    TrackedKeyed(w);
    hide Tracked, Ordered, Step, LatestKnown, OrderInv, KeyedById, CancelAck;
    if h.reportedMissionId == Some(m) {
      ReporterLags(w, x, y, m);
    }
    hide Cancelled;
    assert CancelledFor(s, m) by {
      CloudCancelled(w, x, m);
    }
    hide CancelledFor;
    InactiveWhenCancelled(s, m);
    if |inputs| == 2 {
      assert inputs == [inputs[0]] + [inputs[1]];
      var mid := Step(s, inputs[0], config);
      assert LeavesClosed(s, inputs[0], m, config);
      StepCancelled(s, inputs[0], m, config);
      StepKeyed(s, inputs[0], config);
      ReconnectSkips(s, inputs[0].reconnect, m, config);
      LastCancelled(mid, h, m, Some(at), correlationId, config);
      RunFirst(s, inputs[0], [inputs[1]], config);
      RunOne(mid, inputs[1], config);
    } else if |inputs| == 1 {
      assert inputs == [inputs[0]];
      LastCancelled(s, h, m, Some(at), correlationId, config);
      RunOne(s, inputs[0], config);
    }
  }

  lemma CloudCancelled(w: World, x: Sent, m: Id)
    requires Cancelled(w, x, m)
    ensures CancelledFor(w.cloud, m)
  {
  }

  lemma InactiveWhenCancelled(s: DomainState, m: Id)
    requires CancelledFor(s, m)
    ensures m in s.missions && !ActiveIn(s, m)
  {
  }

  lemma LastCancelled(s: DomainState, h: HandshakeReport, m: Id, now: Option<Time>, correlationId: Id,
                      config: DomainConfig)
    requires KeyedById(s) && CancelledFor(s, m) && (h.reportedMissionId == Some(m) ==> Lags(s, h, m))
    ensures CancelledFor(Step(s, ReconnectHandshake(h, now, correlationId), config), m)
  {
    hide Step, Resumes, CancelledFor, KeyedById, Lags;
    if h.reportedMissionId == Some(m) {
      LaggingIsReviewed(s, h, m);
    }
    StepCancelled(s, ReconnectHandshake(h, now, correlationId), m, config);
  }

  /** Any other input that the platform takes in this system. */
  lemma OtherCancelled(s: DomainState, i: Input, m: Id, config: DomainConfig)
    requires KeyedById(s) && CancelledFor(s, m) && !i.ReconnectHandshake?
    requires UsesNewMission(s, i, config) && EchoesSequence(s, i)
    ensures CancelledFor(Run(s, [i], config), m)
  {
    hide Step, CancelledFor, KeyedById, WritesItsMission, EchoesSequence;
    InactiveWhenCancelled(s, m);
    StepCancelled(s, i, m, config);
    RunOne(s, i, config);
  }

  /** An acknowledgement of an edge echoes the sequence of its command; nothing else is one. */
  lemma ArrivingEchoes(w: World, y: Sent, i: Input)
    requires Tracked(w) && y in w.sent
    requires i.CommandAck? ==> y.message == AckMessage(i.ack)
    ensures EchoesSequence(w.cloud, i)
  {
    assert SentSound(w, y);
  }

  lemma MessageCancelled(w: World, x: Sent, m: Id, y: Sent, at: Time, correlationId: Id, config: DomainConfig)
    requires Tracked(w) && Ordered(w) && LatestKnown(w.cloud) && Cancelled(w, x, m) && y in w.sent
    ensures CancelledFor(Run(w.cloud, InputsOf(w.cloud, y, at, correlationId), config), m)
  {
    TrackedKeyed(w);
    CloudCancelled(w, x, m);
    hide Tracked, Ordered, Step, OrderInv, KeyedById, LatestKnown, Cancelled, CancelledFor;
    if y.message.HandshakeMessage? {
      HandshakeCancelled(w, x, y, m, at, correlationId, config);
    } else {
      var inputs := InputsOf(w.cloud, y, at, correlationId);
      if inputs != [] {
        assert inputs == [inputs[0]];
        ArrivingEchoes(w, y, inputs[0]);
        OtherCancelled(w.cloud, inputs[0], m, config);
      }
    }
  }

  lemma NoAckEchoes(s: DomainState, i: Input)
    requires !i.CommandAck?
    ensures EchoesSequence(s, i)
  {
  }

  lemma NextCancelledFor(w: World, x: Sent, m: Id, a: Action, config: DomainConfig)
    requires Tracked(w) && Ordered(w) && LatestKnown(w.cloud) && Cancelled(w, x, m) && ActionUsesNew(w, a, config)
    ensures CancelledFor(Run(w.cloud, CloudInputs(w, a), config), m)
  {
    TrackedKeyed(w);
    CloudCancelled(w, x, m);
    hide Tracked, Ordered, Step, OrderInv, KeyedById, LatestKnown, Cancelled, CancelledFor, InputsOf, UsesNewMission;
    hide EchoesSequence;
    match a
    case PlatformInput(i) =>
      if FromPlatform(i) {
        assert EchoesSequence(w.cloud, i) by {
          NoAckEchoes(w.cloud, i);
        }
        OtherCancelled(w.cloud, i, m, config);
      }
    case MessageArrives(y, at, correlationId) =>
      if y in w.sent {
        MessageCancelled(w, x, m, y, at, correlationId, config);
      }
    case _ =>
  }

  lemma SentStays(w: World, a: Action, x: Sent, config: DomainConfig)
    requires x in w.sent
    ensures x in Next(w, a, config).sent
  {
    hide Step, Run, HandleCommand, CreateHandshake, CreateTelemetry;
  }

  lemma CancelAckStays(s: DomainState, x: Sent, inputs: seq<Input>, config: DomainConfig)
    requires KeyedById(s) && CancelAck(s, x)
    ensures CancelAck(Run(s, inputs, config), x)
    ensures Run(s, inputs, config).commands[x.message.ack.commandId] == s.commands[x.message.ack.commandId]
  {
    hide Run, KeyedById;
    RunKeepsCommands(s, inputs, config);
  }

  lemma NextCancelled(w: World, x: Sent, m: Id, a: Action, config: DomainConfig)
    requires Tracked(w) && Ordered(w) && Answered(w) && LatestKnown(w.cloud) && Cancelled(w, x, m)
    requires ActionHeeds(w, a, config)
    ensures var n := Next(w, a, config);
            Tracked(n) && Ordered(n) && Answered(n) && LatestKnown(n.cloud) && Cancelled(n, x, m)
  {
    var inputs := CloudInputs(w, a);
    assert ActionUsesNew(w, a, config);
    TrackedKeyed(w);
    NextTracked(w, a, config);
    NextOrdered(w, a, config);
    NextAnswered(w, a, config);
    NextLatest(w, a, config);
    NextIsRun(w, a, config);
    NextCancelledFor(w, x, m, a, config);
    SentStays(w, a, x, config);
    hide Tracked, Ordered, Answered, Next, Run, CloudInputs, OrderInv, KeyedById, LatestKnown, CancelledFor, CancelAck;
    CancelAckStays(w.cloud, x, inputs, config);
  }

  lemma NextLatest(w: World, a: Action, config: DomainConfig)
    requires Tracked(w) && LatestKnown(w.cloud) && ActionUsesNew(w, a, config)
    ensures LatestKnown(Next(w, a, config).cloud)
  {
    TrackedKeyed(w);
    hide Tracked, Next, Run, CloudInputs, OrderInv, LatestKnown, ActionUsesNew;
    InputsUseNew(w, a, config);
    NextIsRun(w, a, config);
    RunLatest(w.cloud, CloudInputs(w, a), config);
  }

  lemma {:induction false} ExecuteCancelled(w: World, x: Sent, m: Id, actions: seq<Action>, config: DomainConfig)
    requires Tracked(w) && Ordered(w) && Answered(w) && LatestKnown(w.cloud) && Cancelled(w, x, m)
    requires ExecutionHeeds(w, actions, config)
    ensures CancelledFor(Execute(w, actions, config).cloud, m)
    decreases |actions|
  {
    hide Next, Tracked, Ordered, Answered, LatestKnown, Cancelled, CancelledFor, ActionHeeds;
    CloudCancelled(w, x, m);
    if actions != [] {
      NextCancelled(w, x, m, actions[0], config);
      ExecuteCancelled(Next(w, actions[0], config), x, m, actions[1..], config);
    }
  }

  lemma {:induction false} ExecuteOrdered(w: World, actions: seq<Action>, config: DomainConfig)
    requires Tracked(w) && Ordered(w) && Answered(w) && LatestKnown(w.cloud) && ExecutionHeeds(w, actions, config)
    ensures var n := Execute(w, actions, config); Tracked(n) && Ordered(n) && Answered(n) && LatestKnown(n.cloud)
    decreases |actions|
  {
    hide Next, Tracked, Ordered, Answered, LatestKnown, ActionUsesNew, NotOvertaken;
    if actions != [] {
      NextTracked(w, actions[0], config);
      NextOrdered(w, actions[0], config);
      NextAnswered(w, actions[0], config);
      NextLatest(w, actions[0], config);
      ExecuteOrdered(Next(w, actions[0], config), actions[1..], config);
    }
  }

  lemma {:induction false} InOrderSplit(w: World, before: seq<Action>, after: seq<Action>, config: DomainConfig)
    requires ExecutionHeeds(w, before + after, config)
    ensures ExecutionHeeds(w, before, config)
    ensures ExecutionHeeds(Execute(w, before, config), after, config)
    ensures Execute(w, before + after, config) == Execute(Execute(w, before, config), after, config)
    decreases |before|
  {
    hide Next, ActionHeeds;
    if before == [] {
      assert before + after == after;
    } else {
      assert (before + after)[1..] == before[1..] + after;
      InOrderSplit(Next(w, before[0], config), before[1..], after, config);
    }
  }

  lemma AckCancelsFor(s: DomainState, ack: Ack, m: Id, config: DomainConfig)
    requires OrderInv(s) && AcknowledgesCancel(s, ack, m) && EchoesSequence(s, CommandAck(ack))
    ensures var n := Step(s, CommandAck(ack), config);
            && CancelledFor(n, m) && n.commands == s.commands && ack.commandId in s.commands
            && s.commands[ack.commandId].commandType.CancelMission? && s.commands[ack.commandId].missionId == m
  {
    OrderedKeyed(s);
    hide Step, OrderInv, KeyedById, Closed, EchoesSequence;
    CancelAckWrites(s, ack, m, config);
    CancelAckCloses(s, ack, m, config);
    hide JudgeAck;
  }

  /** The arrival of the acknowledgement that the cloud takes. */
  lemma ArrivalCancels(w: World, x: Sent, at: Time, correlationId: Id, m: Id, config: DomainConfig)
    requires Tracked(w) && x in w.sent && MatchesConnection(x) && x.message.AckMessage?
    requires AcknowledgesCancel(w.cloud, x.message.ack, m)
    ensures Cancelled(Next(w, MessageArrives(x, at, correlationId), config), x, m)
  {
    hide Tracked, Step, OrderInv, CancelledFor, AcknowledgesCancel, Run, MatchesConnection, Next, EchoesSequence;
    var ack := x.message.ack;
    AcceptedOrRejected(w, x, m);
    TrackedKeyed(w);
    ArrivingEchoes(w, x, CommandAck(ack));
    AckCancelsFor(w.cloud, ack, m, config);
    AckArrives(w, x, at, correlationId, config);
  }

  lemma AckArrives(w: World, x: Sent, at: Time, correlationId: Id, config: DomainConfig)
    requires x in w.sent && MatchesConnection(x) && x.message.AckMessage?
    ensures Next(w, MessageArrives(x, at, correlationId), config)
         == w.(cloud := Step(w.cloud, CommandAck(x.message.ack), config))
  {
    hide Step, Run;
    RunOne(w.cloud, CommandAck(x.message.ack), config);
  }

  lemma AcceptedOrRejected(w: World, x: Sent, m: Id)
    requires Tracked(w) && x in w.sent && x.message.AckMessage? && AcknowledgesCancel(w.cloud, x.message.ack, m)
    ensures x.message.ack.status.Accepted?
  {
    assert SentReports(w, x);
  }

  /**
   When no command is overtaken by or arrives after a cancellation as above and dispatches name new missions: once
   the acknowledgement of a cancellation has been taken, the mission is never active again. Nothing is asked of the
   handshakes, which may be late, repeated or from before the cancellation.
   */
  lemma HeededCancelIsFinal(before: seq<Action>, x: Sent, at: Time, correlationId: Id, after: seq<Action>, m: Id,
                            config: DomainConfig)
    requires ExecutionHeeds(INITIAL_WORLD, before + ([MessageArrives(x, at, correlationId)] + after), config)
    requires var w := Execute(INITIAL_WORLD, before, config);
             && x in w.sent && MatchesConnection(x) && x.message.AckMessage?
             && AcknowledgesCancel(w.cloud, x.message.ack, m)
    ensures var n := Execute(INITIAL_WORLD, before + ([MessageArrives(x, at, correlationId)] + after), config);
            !ActiveIn(n.cloud, m)
  {
    var arrival := MessageArrives(x, at, correlationId);
    var w := Execute(INITIAL_WORLD, before, config);
    InitiallyTracked();
    assert Ordered(INITIAL_WORLD) && Answered(INITIAL_WORLD) && LatestKnown(INITIAL_STATE);
    hide Execute, ExecutionHeeds, Tracked, Ordered, Answered, LatestKnown, Cancelled, CancelledFor, Next, ActionHeeds;
    hide AcknowledgesCancel, MatchesConnection, ActiveIn;
    InOrderSplit(INITIAL_WORLD, before, [arrival] + after, config);
    ExecuteOrdered(INITIAL_WORLD, before, config);
    FirstInOrder(w, arrival, after, config);
    ArrivalCancels(w, x, at, correlationId, m, config);
    var n := Next(w, arrival, config);
    NextTracked(w, arrival, config);
    NextOrdered(w, arrival, config);
    NextAnswered(w, arrival, config);
    NextLatest(w, arrival, config);
    ExecuteCancelled(n, x, m, after, config);
    InactiveWhenCancelled(Execute(n, after, config).cloud, m);
  }

  lemma FirstInOrder(w: World, a: Action, after: seq<Action>, config: DomainConfig)
    requires ExecutionHeeds(w, [a] + after, config)
    ensures ActionHeeds(w, a, config) && ActionUsesNew(w, a, config)
    ensures ExecutionHeeds(Next(w, a, config), after, config)
    ensures Execute(w, [a] + after, config) == Execute(Next(w, a, config), after, config)
  {
    hide Next, UsesNewMission;
    assert ([a] + after)[0] == a && ([a] + after)[1..] == after;
  }

  /******* In-order delivery is enough *******/

  /** A command reaches its edge only while the edge has seen no later one; the latest may be repeated. */
  predicate ActionInOrder(w: World, a: Action, config: DomainConfig) {
    && ActionUsesNew(w, a, config)
    && (a.CommandArrives? && a.commandId in w.cloud.commands && a.edgeId in w.edges
        && w.cloud.commands[a.commandId].robotId == a.edgeId ==>
          w.edges[a.edgeId].lastSeenCommandSequence <= w.cloud.commands[a.commandId].sequence)
  }

  predicate ExecutionInOrder(w: World, actions: seq<Action>, config: DomainConfig)
    decreases |actions|
  {
    actions == []
    || (ActionInOrder(w, actions[0], config) && ExecutionInOrder(Next(w, actions[0], config), actions[1..], config))
  }

  /** A mission's cancellations come after its other commands, so in-order delivery overtakes none of them. */
  lemma InOrderHeeds(w: World, a: Action, config: DomainConfig)
    requires Tracked(w) && ActionInOrder(w, a, config)
    ensures ActionHeeds(w, a, config)
  {
    hide Tracked, ActionUsesNew, CarriedOut;
    if a.CommandArrives? && a.commandId in w.cloud.commands {
      TrackedKeyed(w);
      forall k | k in w.cloud.commands && w.cloud.commands[k].commandType.CancelMission?
                 && !w.cloud.commands[a.commandId].commandType.CancelMission?
        ensures w.cloud.commands[a.commandId].missionId == w.cloud.commands[k].missionId ==>
                  w.cloud.commands[a.commandId].sequence < w.cloud.commands[k].sequence
      {
        CancelIsLast(w.cloud, a.commandId, k);
      }
    }
  }

  lemma {:induction false} InOrderExecutionHeeds(w: World, actions: seq<Action>, config: DomainConfig)
    requires Tracked(w) && ExecutionInOrder(w, actions, config)
    ensures ExecutionHeeds(w, actions, config)
    decreases |actions|
  {
    hide Next, Tracked, ActionUsesNew, NotOvertaken;
    if actions != [] {
      InOrderHeeds(w, actions[0], config);
      NextTracked(w, actions[0], config);
      InOrderExecutionHeeds(Next(w, actions[0], config), actions[1..], config);
    }
  }

  /** In particular when commands reach each edge in order, the latest one any number of times. */
  lemma InOrderCancelIsFinal(before: seq<Action>, x: Sent, at: Time, correlationId: Id, after: seq<Action>, m: Id,
                             config: DomainConfig)
    requires ExecutionInOrder(INITIAL_WORLD, before + ([MessageArrives(x, at, correlationId)] + after), config)
    requires var w := Execute(INITIAL_WORLD, before, config);
             && x in w.sent && MatchesConnection(x) && x.message.AckMessage?
             && AcknowledgesCancel(w.cloud, x.message.ack, m)
    ensures var n := Execute(INITIAL_WORLD, before + ([MessageArrives(x, at, correlationId)] + after), config);
            !ActiveIn(n.cloud, m)
  {
    hide Execute, ExecutionInOrder, ExecutionHeeds, AcknowledgesCancel, MatchesConnection, ActiveIn, Tracked;
    InitiallyTracked();
    InOrderExecutionHeeds(INITIAL_WORLD, before + ([MessageArrives(x, at, correlationId)] + after), config);
    HeededCancelIsFinal(before, x, at, correlationId, after, m, config);
  }
}
