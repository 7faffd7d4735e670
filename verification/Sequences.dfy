/** Per-robot command sequences: used once, without gaps, across dispatches and cancellations. */
module Sequences {
  import opened Texts
  import opened FleetState
  import opened Dispatch
  import opened Cancel
  import opened FleetRun

  /** The sequences of the robot's commands. */
  ghost function Used(s: DomainState, robotId: Id): iset<int> {
    iset c | c in s.commands && s.commands[c].robotId == robotId :: s.commands[c].sequence
  }

  /** The used sequences are exactly `first .. nextSequence - 1`, all positive. */
  ghost predicate GaplessFrom(s: DomainState, robotId: Id, first: int)
    requires robotId in s.nextSequence
  {
    && 1 <= first < s.nextSequence[robotId]
    && forall q :: q in Used(s, robotId) <==> first <= q < s.nextSequence[robotId]
  }

  ghost predicate UsedOnce(s: DomainState) {
    forall a, b | a in s.commands && b in s.commands && a != b && s.commands[a].robotId == s.commands[b].robotId ::
      s.commands[a].sequence != s.commands[b].sequence
  }

  /** A mission that has been sent a command belongs to a robot that has a counter. */
  ghost predicate CountersCover(s: DomainState) {
    && (forall c | c in s.commands :: s.commands[c].robotId in s.nextSequence)
    && (forall m | m in s.missions && s.missions[m].lastCommandSequence.Some? ::
          s.missions[m].robotId in s.nextSequence)
  }

  ghost predicate SequencesInv(s: DomainState) {
    && KeyedById(s)
    && UsedOnce(s)
    && CountersCover(s)
    && (forall r | r in s.nextSequence :: exists first :: GaplessFrom(s, r, first))
  }

  /** The first sequence a robot without a counter gets: one, or one past what its edge claims to have seen. */
  lemma FirstSequencePositive(s: DomainState, i: Input, config: DomainConfig)
    requires SequencesInv(s)
    requires StepChanges(s, i, config).command.Some?
    ensures var c := StepChanges(s, i, config).command.value;
            c.robotId !in s.nextSequence ==> 1 <= c.sequence
  {
    hide TargetPose, PayloadIssues, DispatchSignature, CancelSignature, ReasonPayload, AssignedRobot;
    hide GaplessFrom, UsedOnce;
  }

  /** Every stored command's sequence is below its robot's counter. */
  lemma SequenceBelowCounter(s: DomainState, c: Id)
    requires SequencesInv(s) && c in s.commands
    ensures s.commands[c].robotId in s.nextSequence
    ensures s.commands[c].sequence < s.nextSequence[s.commands[c].robotId]
  {
    var r := s.commands[c].robotId;
    var first :| GaplessFrom(s, r, first);
    assert s.commands[c].sequence in Used(s, r);
  }

  lemma UsedAfterIssue(s: DomainState, n: DomainState, c: Command, r: Id)
    requires KeyedById(s) && c.commandId !in s.commands && n.commands == s.commands[c.commandId := c]
    ensures r == c.robotId ==> Used(n, r) == Used(s, r) + iset{c.sequence}
    ensures r != c.robotId ==> Used(n, r) == Used(s, r)
  {
    forall q ensures q in Used(n, r) <==> q in Used(s, r) || (r == c.robotId && q == c.sequence) {
      if q in Used(s, r) {
        var x :| x in s.commands && s.commands[x].robotId == r && s.commands[x].sequence == q;
        assert n.commands[x] == s.commands[x];
      }
      if q in Used(n, r) {
        var x :| x in n.commands && n.commands[x].robotId == r && n.commands[x].sequence == q;
        assert x != c.commandId ==> n.commands[x] == s.commands[x];
      }
      if r == c.robotId && q == c.sequence {
        assert c.commandId in n.commands && n.commands[c.commandId] == c;
      }
    }
  }

  /** Issuing the robot's next sequence extends its interval by one. */
  lemma IssueKeepsGapless(s: DomainState, n: DomainState, c: Command, r: Id)
    requires SequencesInv(s) && c.commandId !in s.commands
    requires n.commands == s.commands[c.commandId := c]
    requires n.nextSequence == s.nextSequence[c.robotId := c.sequence + 1]
    requires if c.robotId in s.nextSequence then c.sequence == s.nextSequence[c.robotId] else 1 <= c.sequence
    requires r in n.nextSequence
    ensures exists first :: GaplessFrom(n, r, first)
  {
    UsedAfterIssue(s, n, c, r);
    if r in s.nextSequence {
      var first :| GaplessFrom(s, r, first);
      assert GaplessFrom(n, r, first);
    } else {
      assert Used(s, r) == iset{};
      assert GaplessFrom(n, r, c.sequence);
    }
  }

  lemma IssueKeepsUsedOnce(s: DomainState, n: DomainState, c: Command)
    requires SequencesInv(s) && c.commandId !in s.commands
    requires n.commands == s.commands[c.commandId := c]
    requires c.robotId in s.nextSequence ==> c.sequence == s.nextSequence[c.robotId]
    ensures UsedOnce(n)
  {
    forall a | a in s.commands && s.commands[a].robotId == c.robotId ensures s.commands[a].sequence != c.sequence {
      var first :| GaplessFrom(s, c.robotId, first);
      assert s.commands[a].sequence in Used(s, c.robotId);
    }
  }

  lemma StepSequences(s: DomainState, i: Input, config: DomainConfig)
    requires SequencesInv(s)
    ensures SequencesInv(Step(s, i, config))
  {
    StepPuts(s, i, config);
    StepIssues(s, i, config);
    StepKeyed(s, i, config);
    StepMissions(s, i, config);
    var ch, n := StepChanges(s, i, config), Step(s, i, config);
    if ch.command.Some? {
      FirstSequencePositive(s, i, config);
      IssueStep(s, n, ch);
    } else {
      SnapshotStep(s, n, ch, i);
    }
    hide Step, StepChanges, SequencesInv;
  }

  lemma IssueStep(s: DomainState, n: DomainState, ch: Changes)
    requires SequencesInv(s) && KeyedById(n)
    requires ch.command.Some? && ch.mission.Some?
    requires var c, p := ch.command.value, Put(s, ch);
             && c.commandId !in s.commands
             && ch.mission.value.robotId == c.robotId
             && n.commands == p.commands && n.nextSequence == p.nextSequence && n.missions == p.missions
             && (if c.robotId in s.nextSequence then c.sequence == s.nextSequence[c.robotId] else 1 <= c.sequence)
    ensures SequencesInv(n)
  {
    hide GaplessFrom, UsedOnce, KeyedById;
    var c := ch.command.value;
    IssueKeepsUsedOnce(s, n, c);
    forall r | r in n.nextSequence ensures exists first :: GaplessFrom(n, r, first) {
      IssueKeepsGapless(s, n, c, r);
    }
  }

  lemma SnapshotStep(s: DomainState, n: DomainState, ch: Changes, i: Input)
    requires SequencesInv(s) && KeyedById(n)
    requires ch.command.None?
    requires var p := Put(s, ch);
             n.commands == p.commands && n.nextSequence == p.nextSequence && n.missions == p.missions
    requires ch.mission.Some? ==> RewrittenOrRefused(s, i, ch.mission.value)
    ensures SequencesInv(n)
  {
    forall r | r in n.nextSequence ensures exists first :: GaplessFrom(n, r, first) {
      var first :| GaplessFrom(s, r, first);
      assert Used(n, r) == Used(s, r);
      assert GaplessFrom(n, r, first);
    }
    hide KeyedById, GaplessFrom;
  }

  lemma {:induction false} RunSequences(s: DomainState, inputs: seq<Input>, config: DomainConfig)
    requires SequencesInv(s)
    ensures SequencesInv(Run(s, inputs, config))
    decreases |inputs|
  {
    hide Step, SequencesInv;
    if inputs != [] {
      StepSequences(s, inputs[0], config);
      RunSequences(Step(s, inputs[0], config), inputs[1..], config);
    }
  }

  /**
   In every reachable state the commands of a robot are in bijection with a contiguous interval of positive
   integers that ends just below its counter: every number is used, and only once. A robot without a counter
   has no commands.
   */
  lemma GaplessSequences(inputs: seq<Input>, config: DomainConfig, robotId: Id)
    ensures var n := Run(INITIAL_STATE, inputs, config);
            && UsedOnce(n)
            && (robotId in n.nextSequence ==> exists first :: GaplessFrom(n, robotId, first))
            && (robotId !in n.nextSequence ==> Used(n, robotId) == iset{})
  {
    assert SequencesInv(INITIAL_STATE);
    RunSequences(INITIAL_STATE, inputs, config);
    hide Run, GaplessFrom;
    var n := Run(INITIAL_STATE, inputs, config);
    if robotId !in n.nextSequence {
      assert forall c | c in n.commands :: n.commands[c].robotId != robotId;
    }
  }
}
