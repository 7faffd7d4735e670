/** Cancellation in the composed system: the edges themselves meet the hypothesis on acknowledgements. */
module ComposedFinality {
  import opened Texts
  import opened FleetState
  import opened Reconnect
  import opened FleetRun
  import opened CancelFinality
  import opened EdgeComposition

  /** New dispatches use fresh mission ids, and a handshake that arrives reports no mission already inactive. */
  predicate ActionFollows(w: World, a: Action, config: DomainConfig) {
    match a
    case PlatformInput(i) => FromPlatform(i) ==> Follows(w.cloud, i, config)
    case MessageArrives(m, at, correlationId) =>
      m in w.sent && MatchesConnection(m) && m.message.HandshakeMessage? ==>
        var reported := m.message.handshake.reportedMissionId;
        reported.Some? && reported.value in w.cloud.missions ==> ActiveIn(w.cloud, reported.value)
    case _ => true
  }

  predicate ExecutionFollows(w: World, actions: seq<Action>, config: DomainConfig)
    decreases |actions|
  {
    actions == []
    || (ActionFollows(w, actions[0], config) && ExecutionFollows(Next(w, actions[0], config), actions[1..], config))
  }

  lemma {:induction false} RunFollowsJoin(s: DomainState, before: seq<Input>, after: seq<Input>, config: DomainConfig)
    requires RunFollows(s, before, config) && RunFollows(Run(s, before, config), after, config)
    ensures RunFollows(s, before + after, config)
    decreases |before|
  {
    hide Step, Follows;
    if before == [] {
      assert before + after == after;
    } else {
      RunFollowsJoin(Step(s, before[0], config), before[1..], after, config);
      assert (before + after)[1..] == before[1..] + after;
    }
  }

  lemma RunFollowsOne(s: DomainState, i: Input, config: DomainConfig)
    requires Follows(s, i, config)
    ensures RunFollows(s, [i], config)
  {
    hide Step, Follows;
    assert [i][1..] == [];
  }

  /** Beginning a reconnect changes no lifecycle. */
  lemma ReconnectKeepsActive(s: DomainState, r: ReconnectInput, m: Id, config: DomainConfig)
    requires KeyedById(s)
    ensures var n := Step(s, ReconnectStarted(r), config);
            (ActiveIn(s, m) <==> ActiveIn(n, m)) && (m in s.missions <==> m in n.missions)
  {
    StepPuts(s, ReconnectStarted(r), config);
    hide Step;
  }

  /** What the platform takes in one action follows the protocol; for acknowledgements the edges see to that. */
  lemma ArrivalFollows(w: World, m: Sent, at: Time, correlationId: Id, config: DomainConfig)
    requires Sound(w) && m in w.sent && MatchesConnection(m)
    requires ActionFollows(w, MessageArrives(m, at, correlationId), config)
    ensures RunFollows(w.cloud, InputsOf(w.cloud, m, at, correlationId), config)
  {
    var inputs := InputsOf(w.cloud, m, at, correlationId);
    assert SentSound(w, m);
    assert KeyedById(w.cloud);
    hide Sound, RunFollows, Step;
    if m.message.HandshakeMessage? {
      var h := m.message.handshake;
      var last := ReconnectHandshake(h, Some(at), correlationId);
      if |inputs| == 2 {
        var first := inputs[0];
        RunFollowsOne(w.cloud, first, config);
        if h.reportedMissionId.Some? {
          ReconnectKeepsActive(w.cloud, first.reconnect, h.reportedMissionId.value, config);
        }
        RunFollowsOne(Step(w.cloud, first, config), last, config);
        RunOne(w.cloud, first, config);
        assert inputs == [first] + [last];
        RunFollowsJoin(w.cloud, [first], [last], config);
      } else {
        assert inputs == [last];
        RunFollowsOne(w.cloud, last, config);
      }
    } else {
      assert inputs == [inputs[0]];
      RunFollowsOne(w.cloud, inputs[0], config);
    }
  }

  lemma ActionIsFollowed(w: World, a: Action, config: DomainConfig)
    requires Sound(w) && ActionFollows(w, a, config)
    ensures RunFollows(w.cloud, CloudInputs(w, a), config)
  {
    hide Sound, Step, InputsOf, ActionFollows;
    assert RunFollows(w.cloud, [], config);
    match a
    case PlatformInput(i) =>
      if FromPlatform(i) {
        assert Follows(w.cloud, i, config) by {
          PlatformFollows(w, i, config);
        }
        RunFollowsOne(w.cloud, i, config);
      }
    case MessageArrives(m, at, correlationId) =>
      if m in w.sent && MatchesConnection(m) {
        ArrivalFollows(w, m, at, correlationId, config);
      } else {
        assert CloudInputs(w, a) == [] by {
          MismatchIgnored(w, m, at, correlationId);
        }
      }
    case _ =>
  }

  lemma PlatformFollows(w: World, i: Input, config: DomainConfig)
    requires ActionFollows(w, PlatformInput(i), config) && FromPlatform(i)
    ensures Follows(w.cloud, i, config)
  {
    hide Follows;
  }

  lemma MismatchIgnored(w: World, m: Sent, at: Time, correlationId: Id)
    requires !(m in w.sent && MatchesConnection(m))
    ensures CloudInputs(w, MessageArrives(m, at, correlationId)) == []
  {
  }

  lemma {:induction false} HistoryFollows(w: World, actions: seq<Action>, config: DomainConfig)
    requires Sound(w) && ExecutionFollows(w, actions, config)
    ensures RunFollows(w.cloud, CloudHistory(w, actions, config), config)
    decreases |actions|
  {
    hide Step, Sound, Next, CloudInputs, ActionFollows;
    if actions != [] {
      var n := Next(w, actions[0], config);
      ActionIsFollowed(w, actions[0], config);
      NextSound(w, actions[0], config);
      NextIsRun(w, actions[0], config);
      HistoryFollows(n, actions[1..], config);
      RunFollowsJoin(w.cloud, CloudInputs(w, actions[0]), CloudHistory(n, actions[1..], config), config);
    }
  }

  lemma {:induction false} ExecutionFollowsSplit(w: World, before: seq<Action>, after: seq<Action>,
                                                 config: DomainConfig)
    requires ExecutionFollows(w, before + after, config)
    ensures ExecutionFollows(w, before, config)
    ensures ExecutionFollows(Execute(w, before, config), after, config)
    ensures Execute(w, before + after, config) == Execute(Execute(w, before, config), after, config)
    decreases |before|
  {
    hide Next, ActionFollows;
    if before == [] {
      assert before + after == after;
    } else {
      assert (before + after)[1..] == before[1..] + after;
      ExecutionFollowsSplit(Next(w, before[0], config), before[1..], after, config);
    }
  }

  /**
   In the composed system, once the acknowledgement of a cancellation of mission `mission` has arrived and has
   been processed, that mission is never active again, whatever the platform, the edges and the network do.
   */
  lemma ComposedCancelIsFinal(before: seq<Action>, m: Sent, at: Time, correlationId: Id, after: seq<Action>,
                              mission: Id, config: DomainConfig)
    requires ExecutionFollows(INITIAL_WORLD, before + ([MessageArrives(m, at, correlationId)] + after), config)
    requires var w := Execute(INITIAL_WORLD, before, config);
             && m in w.sent && MatchesConnection(m) && m.message.AckMessage?
             && AcknowledgesCancel(w.cloud, m.message.ack, mission)
    ensures var n := Execute(INITIAL_WORLD, before + ([MessageArrives(m, at, correlationId)] + after), config);
            !ActiveIn(n.cloud, mission)
  {
    var arrival := MessageArrives(m, at, correlationId);
    var rest := [arrival] + after;
    var w := Execute(INITIAL_WORLD, before, config);
    ExecutionFollowsSplit(INITIAL_WORLD, before, rest, config);
    InitiallySound();
    ExecuteSound(INITIAL_WORLD, before, config);
    HistoryFollows(INITIAL_WORLD, before, config);
    ExecutionIsRun(INITIAL_WORLD, before, config);
    OrderInitially();
    hide Sound, Step, Run, RunFollows, Execute, ExecutionFollows, OrderInv, AcknowledgesCancel, ActiveIn, CloudHistory;
    FollowingUsesNew(INITIAL_STATE, CloudHistory(INITIAL_WORLD, before, config), config);
    RunOrder(INITIAL_STATE, CloudHistory(INITIAL_WORLD, before, config), config);
    ArrivalClosesFor(w, m, at, correlationId, after, mission, config);
  }

  lemma ArrivalClosesFor(w: World, m: Sent, at: Time, correlationId: Id, after: seq<Action>, mission: Id,
                         config: DomainConfig)
    requires Sound(w) && OrderInv(w.cloud)
    requires ExecutionFollows(w, [MessageArrives(m, at, correlationId)] + after, config)
    requires m in w.sent && MatchesConnection(m) && m.message.AckMessage?
    requires AcknowledgesCancel(w.cloud, m.message.ack, mission)
    ensures !ActiveIn(Execute(w, [MessageArrives(m, at, correlationId)] + after, config).cloud, mission)
  {
    var arrival := MessageArrives(m, at, correlationId);
    var rest := [arrival] + after;
    assert rest[0] == arrival && rest[1..] == after;
    var history := CloudHistory(w, rest, config);
    assert CloudInputs(w, arrival) == [CommandAck(m.message.ack)];
    var later := CloudHistory(Next(w, arrival, config), after, config);
    assert history == [CommandAck(m.message.ack)] + later;
    hide Sound, Step, Next, Run, RunFollows, Execute, OrderInv, AcknowledgesCancel, ActiveIn, CloudHistory, CloudInputs;
    HistoryFollows(w, rest, config);
    ExecutionIsRun(w, rest, config);
    ClosedForGood(w.cloud, m.message.ack, later, mission, config);
  }
}
