/** A request blocked for safety stays blocked: its mission is never active and never gets a command. */
module BlockedFinality {
  import opened Texts
  import opened FleetState
  import opened Dispatch
  import opened Cancel
  import opened Decisions
  import opened FleetRun
  import opened Lifecycles
  import opened Sequences
  import opened CancelFinality
  import opened EdgeComposition
  import opened EdgeReports

  /** A mission that is not active and for which no command was ever issued. */
  ghost predicate Unsent(s: DomainState, m: Id) {
    && m in s.missions && !IsActive(s.missions[m].lifecycle)
    && forall c | c in s.commands :: s.commands[c].missionId != m
  }

  ghost predicate BlockedUnsent(s: DomainState) {
    forall m: Id :: LifecycleOf(s, m) == Some(SAFETY_BLOCKED) ==> Unsent(s, m)
  }

  /** A new command makes its mission active. */
  lemma IssuingActivates(s: DomainState, i: Input, config: DomainConfig)
    requires KeyedById(s)
    ensures var ch := StepChanges(s, i, config);
            ch.command.Some? ==> ActiveIn(Step(s, i, config), ch.command.value.missionId)
  {
    hide Step, Judge, JudgeCancel, DispatchSignature, CancelSignature, TargetPose, AssignedRobot, ReasonPayload;
    hide NextSequence, CancelSequence;
    StepPuts(s, i, config);
    if i.CancelRequest? {
      CancelNames(s, i.c, config);
    }
  }

  /** It stays that way through a step if and only if the input is not one that revives it. */
  lemma UnsentExact(s: DomainState, i: Input, m: Id, config: DomainConfig)
    requires KeyedById(s) && Unsent(s, m)
    ensures Unsent(Step(s, i, config), m) <==> !Revives(s, i, m, config)
  {
    hide Step, StepChanges, Revives, KeyedById;
    RevivalExact(s, i, m, config);
    IssuingActivates(s, i, config);
    StepPuts(s, i, config);
    StepKeyed(s, i, config);
  }

  /** A handshake reports only a mission that a command was issued for, or one the platform does not know. */
  ghost predicate ReportsCommanded(s: DomainState, i: Input) {
    i.ReconnectHandshake? && i.handshake.reportedMissionId.Some?
    && i.handshake.reportedMissionId.value in s.missions ==>
      Commanded(s, i.handshake.reportedMissionId.value, false)
  }

  lemma NotRevived(s: DomainState, i: Input, m: Id, config: DomainConfig)
    requires Unsent(s, m) && UsesNewMission(s, i, config) && ReportsCommanded(s, i)
    ensures !Revives(s, i, m, config)
  {
    hide Judge;
  }

  lemma StepUnsent(s: DomainState, i: Input, m: Id, config: DomainConfig)
    requires KeyedById(s) && Unsent(s, m) && UsesNewMission(s, i, config) && ReportsCommanded(s, i)
    ensures Unsent(Step(s, i, config), m)
  {
    hide Step, Unsent, UsesNewMission, ReportsCommanded, Revives, KeyedById;
    NotRevived(s, i, m, config);
    UnsentExact(s, i, m, config);
  }

  /** A refused request for a new mission leaves that mission without any command. */
  lemma RefusedUnsent(s: DomainState, d: DispatchInput, config: DomainConfig)
    requires KeyedById(s) && CommandsOwned(s) && d.missionId !in s.missions && Refusable(s, d, config)
    ensures Unsent(Step(s, DispatchRequest(d), config), d.missionId)
  {
    hide Step, Judge, TargetPose, Refusable;
    JudgeExactly(s, d, config);
    StepPuts(s, DispatchRequest(d), config);
  }

  lemma StepBlocked(s: DomainState, i: Input, m: Id, config: DomainConfig)
    requires OrderInv(s) && BlockedUnsent(s) && UsesNewMission(s, i, config) && ReportsCommanded(s, i)
    requires LifecycleOf(Step(s, i, config), m) == Some(SAFETY_BLOCKED)
    ensures Unsent(Step(s, i, config), m)
  {
    hide Step, Unsent, ReportsCommanded, FreshKey, Proper, Sendable, Cancellable, Stale, Objection, TimesOut, Concerned;
    hide SequencesInv, CommandsOwned, CancelsLast, KeyedById;
    assert KeyedById(s) by {
      Keyed(s);
    }
    if LifecycleOf(s, m) == Some(SAFETY_BLOCKED) {
      StepUnsent(s, i, m, config);
    } else {
      LifecycleExact(s, i, m, config);
      RefusedUnsent(s, i.d, config);
    }
  }

  lemma Keyed(s: DomainState)
    requires OrderInv(s)
    ensures KeyedById(s) && CommandsOwned(s)
  {
  }

  ghost predicate RunReports(s: DomainState, inputs: seq<Input>, config: DomainConfig)
    decreases |inputs|
  {
    inputs == [] || (ReportsCommanded(s, inputs[0]) && RunReports(Step(s, inputs[0], config), inputs[1..], config))
  }

  lemma {:induction false} RunBlocked(s: DomainState, inputs: seq<Input>, config: DomainConfig)
    requires OrderInv(s) && BlockedUnsent(s)
    requires RunUsesNewMissions(s, inputs, config) && RunReports(s, inputs, config)
    ensures OrderInv(Run(s, inputs, config)) && BlockedUnsent(Run(s, inputs, config))
    ensures forall m: Id :: Unsent(s, m) ==> Unsent(Run(s, inputs, config), m)
    decreases |inputs|
  {
    hide Step, OrderInv, Unsent, UsesNewMission, ReportsCommanded, LifecycleOf;
    if inputs != [] {
      var n := Step(s, inputs[0], config);
      Keyed(s);
      StepOrder(s, inputs[0], config);
      forall m: Id ensures Unsent(s, m) ==> Unsent(n, m) {
        if Unsent(s, m) {
          StepUnsent(s, inputs[0], m, config);
        }
      }
      forall m: Id ensures LifecycleOf(n, m) == Some(SAFETY_BLOCKED) ==> Unsent(n, m) {
        if LifecycleOf(n, m) == Some(SAFETY_BLOCKED) {
          StepBlocked(s, inputs[0], m, config);
        }
      }
      RunBlocked(n, inputs[1..], config);
    }
  }

  lemma {:induction false} RunSplit(s: DomainState, before: seq<Input>, after: seq<Input>, config: DomainConfig)
    requires RunUsesNewMissions(s, before + after, config) && RunReports(s, before + after, config)
    ensures RunUsesNewMissions(s, before, config) && RunReports(s, before, config)
    ensures RunUsesNewMissions(Run(s, before, config), after, config)
    ensures RunReports(Run(s, before, config), after, config)
    decreases |before|
  {
    hide Step, UsesNewMission, ReportsCommanded;
    if before == [] {
      assert before + after == after;
    } else {
      assert (before + after)[1..] == before[1..] + after;
      RunSplit(Step(s, before[0], config), before[1..], after, config);
    }
  }

  /**
   Over every run with new mission ids in which handshakes report only missions that commands were issued for: a
   mission that was blocked for safety is never active afterwards, and no command is ever issued for it.
   */
  lemma BlockedIsFinal(before: seq<Input>, after: seq<Input>, m: Id, config: DomainConfig)
    requires RunUsesNewMissions(INITIAL_STATE, before + after, config)
    requires RunReports(INITIAL_STATE, before + after, config)
    requires LifecycleOf(Run(INITIAL_STATE, before, config), m) == Some(SAFETY_BLOCKED)
    ensures Unsent(Run(INITIAL_STATE, before + after, config), m)
  {
    OrderInitially();
    assert BlockedUnsent(INITIAL_STATE);
    hide Step, Run, OrderInv, Unsent, RunUsesNewMissions, RunReports, LifecycleOf;
    RunSplit(INITIAL_STATE, before, after, config);
    RunAppend(INITIAL_STATE, before, after, config);
    RunBlocked(INITIAL_STATE, before, config);
    RunBlocked(Run(INITIAL_STATE, before, config), after, config);
  }

  /******* With edges that report for themselves *******/

  /** The handshakes among the inputs name missions with stored commands. */
  ghost predicate AllReport(s: DomainState, inputs: seq<Input>) {
    forall i | i in inputs && i.ReconnectHandshake? && i.handshake.reportedMissionId.Some? ::
      Commanded(s, i.handshake.reportedMissionId.value, false)
  }

  lemma {:induction false} AllReportRun(s: DomainState, inputs: seq<Input>, config: DomainConfig)
    requires KeyedById(s) && AllReport(s, inputs)
    ensures RunReports(s, inputs, config)
    decreases |inputs|
  {
    hide Step, Commanded, KeyedById;
    if inputs != [] {
      var n := Step(s, inputs[0], config);
      StepKeyed(s, inputs[0], config);
      forall i | i in inputs[1..] && i.ReconnectHandshake? && i.handshake.reportedMissionId.Some?
        ensures Commanded(n, i.handshake.reportedMissionId.value, false)
      {
        CommandedAfter(s, inputs[0], i.handshake.reportedMissionId.value, false, config);
      }
      AllReportRun(n, inputs[1..], config);
    }
  }

  lemma InputsReport(w: World, a: Action)
    requires Reports(w)
    ensures AllReport(w.cloud, CloudInputs(w, a))
  {
    hide Reports;
    if a.MessageArrives? && a.arrived in w.sent && a.arrived.message.HandshakeMessage? {
      assert SentReports(w, a.arrived) by {
        SentReport(w, a.arrived);
      }
      var h := a.arrived.message.handshake;
      assert Commanded(w.cloud, h.reportedMissionId.value, false);
    }
  }

  lemma SentReport(w: World, x: Sent)
    requires Reports(w) && x in w.sent
    ensures SentReports(w, x)
  {
  }

  lemma NextBlocked(w: World, a: Action, config: DomainConfig)
    requires Tracked(w) && BlockedUnsent(w.cloud) && ActionUsesNew(w, a, config)
    ensures Tracked(Next(w, a, config)) && BlockedUnsent(Next(w, a, config).cloud)
    ensures forall m: Id :: Unsent(w.cloud, m) ==> Unsent(Next(w, a, config).cloud, m)
  {
    hide Sound, OrderInv, Reports, Next, CloudInputs, ActionUsesNew, BlockedUnsent, Unsent, AllReport;
    NextTracked(w, a, config);
    NextIsRun(w, a, config);
    InputsUseNew(w, a, config);
    InputsReport(w, a);
    Keyed(w.cloud);
    AllReportRun(w.cloud, CloudInputs(w, a), config);
    RunBlocked(w.cloud, CloudInputs(w, a), config);
  }

  lemma {:induction false} ExecuteBlocked(w: World, actions: seq<Action>, config: DomainConfig)
    requires Tracked(w) && BlockedUnsent(w.cloud) && ExecutionUsesNew(w, actions, config)
    ensures Tracked(Execute(w, actions, config)) && BlockedUnsent(Execute(w, actions, config).cloud)
    ensures forall m: Id :: Unsent(w.cloud, m) ==> Unsent(Execute(w, actions, config).cloud, m)
    decreases |actions|
  {
    hide Next, Tracked, ActionUsesNew, BlockedUnsent, Unsent;
    if actions != [] {
      NextBlocked(w, actions[0], config);
      ExecuteBlocked(Next(w, actions[0], config), actions[1..], config);
    }
  }

  lemma UnsentUnreported(w: World, m: Id, e: Id)
    requires Reports(w) && Unsent(w.cloud, m) && e in w.edges
    ensures w.edges[e].currentMissionId != Some(m)
  {
    assert ReportsOwn(w, e);
  }

  /**
   In the composed system new mission ids are all it takes: whatever the platform, the edges and the network do, a
   mission that was blocked for safety is never active, no command is issued for it, and no edge works on it.
   */
  lemma ComposedBlockedIsFinal(before: seq<Action>, after: seq<Action>, m: Id, config: DomainConfig)
    requires ExecutionUsesNew(INITIAL_WORLD, before + after, config)
    requires LifecycleOf(Execute(INITIAL_WORLD, before, config).cloud, m) == Some(SAFETY_BLOCKED)
    ensures var w := Execute(INITIAL_WORLD, before + after, config);
            Unsent(w.cloud, m) && forall e | e in w.edges :: w.edges[e].currentMissionId != Some(m)
  {
    InitiallyTracked();
    assert BlockedUnsent(INITIAL_STATE);
    hide Execute, ExecutionUsesNew, Sound, OrderInv, Reports, Unsent, LifecycleOf;
    ExecutionUsesNewSplit(INITIAL_WORLD, before, after, config);
    ExecuteBlocked(INITIAL_WORLD, before, config);
    ExecuteBlocked(Execute(INITIAL_WORLD, before, config), after, config);
    var w := Execute(INITIAL_WORLD, before + after, config);
    forall e | e in w.edges ensures w.edges[e].currentMissionId != Some(m) {
      UnsentUnreported(w, m, e);
    }
  }
}
