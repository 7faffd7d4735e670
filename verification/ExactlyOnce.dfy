/** Edge messages delivered at least once act exactly once. */
module ExactlyOnce {
  import opened Texts
  import opened FleetState
  import opened Dispatch
  import opened Cancel
  import opened Acknowledge
  import opened Telemetry
  import opened Reconnect
  import opened FleetRun

  /** The identity by which the platform recognises an edge message. */
  datatype MessageId = AckId(id: Id) | EventId(id: Id) | SessionId(id: Id)

  function MessageIdOf(i: Input): Option<MessageId> {
    match i
    case CommandAck(ack) => Some(AckId(ack.ackId))
    case RobotTelemetry(t) => Some(EventId(t.eventId))
    case ReconnectHandshake(h, now, correlationId) => Some(SessionId(h.edgeSessionId))
    case _ => None
  }

  predicate Seen(s: DomainState, id: MessageId) {
    match id
    case AckId(a) => a in s.processedAckIds
    case EventId(e) => e in s.processedEventIds
    case SessionId(x) => x in s.processedSessionIds
  }

  /** A message already seen changes nothing at all and emits nothing. */
  lemma SeenIsIgnored(s: DomainState, i: Input, config: DomainConfig)
    requires MessageIdOf(i).Some? && Seen(s, MessageIdOf(i).value)
    ensures Step(s, i, config) == s
  {
  }

  /** A step marks the id of its message, and nothing else, as seen. */
  lemma StepMarks(s: DomainState, i: Input, config: DomainConfig, id: MessageId)
    ensures Seen(Step(s, i, config), id) <==> Seen(s, id) || MessageIdOf(i) == Some(id)
  {
    StepPuts(s, i, config);
    ChangesMark(s, i, config);
    hide Step, StepChanges;
  }

  /** Which lists a step's changes append to. */
  lemma ChangesMark(s: DomainState, i: Input, config: DomainConfig)
    ensures var ch := StepChanges(s, i, config);
            var id := MessageIdOf(i);
            if id.Some? && !Seen(s, id.value) then
              && ch.ackId == (if id.value.AckId? then Some(id.value.id) else None)
              && ch.eventId == (if id.value.EventId? then Some(id.value.id) else None)
              && ch.sessionId == (if id.value.SessionId? then Some(id.value.id) else None)
            else ch.ackId == None && ch.eventId == None && ch.sessionId == None
  {
    hide Judge, JudgeCancel, RejectedMission, DecideReconciliation, DispatchSignature, CancelSignature;
    hide ReconciledMission, ReconciledRobot, ReportedRobot, ReportedMission, AckedRobot, AckedMission;
  }

  /** The inputs without every edge message whose id is in `seen` or occurred earlier. */
  function WithoutRepeats(inputs: seq<Input>, seen: set<MessageId>): seq<Input> {
    if inputs == [] then []
    else
      var id := MessageIdOf(inputs[0]);
      if id.None? then [inputs[0]] + WithoutRepeats(inputs[1..], seen)
      else if id.value in seen then WithoutRepeats(inputs[1..], seen)
      else [inputs[0]] + WithoutRepeats(inputs[1..], seen + {id.value})
  }

  /** Every message occurs at most once and none is in `seen`. */
  ghost predicate Fresh(kept: seq<Input>, seen: set<MessageId>) {
    && (forall k | 0 <= k < |kept| :: MessageIdOf(kept[k]).Some? ==> MessageIdOf(kept[k]).value !in seen)
    && (forall j, k | 0 <= j < k < |kept| ::
          MessageIdOf(kept[j]).Some? ==> MessageIdOf(kept[j]) != MessageIdOf(kept[k]))
  }

  lemma FreshCons(i: Input, rest: seq<Input>, seen: set<MessageId>)
    requires MessageIdOf(i).Some? ==> MessageIdOf(i).value !in seen
    requires Fresh(rest, if MessageIdOf(i).Some? then seen + {MessageIdOf(i).value} else seen)
    ensures Fresh([i] + rest, seen)
  {
    hide MessageIdOf;
    var kept := [i] + rest;
    assert forall k | 0 < k < |kept| :: kept[k] == rest[k - 1];
  }

  lemma {:induction false} NoRepeatsLeft(inputs: seq<Input>, seen: set<MessageId>)
    ensures Fresh(WithoutRepeats(inputs, seen), seen)
  {
    hide Fresh;
    if inputs == [] {
      EmptyFresh(seen);
    } else {
      var id := MessageIdOf(inputs[0]);
      if id.Some? && id.value in seen {
        NoRepeatsLeft(inputs[1..], seen);
      } else {
        var more := if id.Some? then seen + {id.value} else seen;
        NoRepeatsLeft(inputs[1..], more);
        FreshCons(inputs[0], WithoutRepeats(inputs[1..], more), seen);
      }
    }
  }

  lemma EmptyFresh(seen: set<MessageId>)
    ensures Fresh([], seen)
  {
  }

  lemma {:induction false} RepeatsIgnoredFrom(s: DomainState, inputs: seq<Input>, seen: set<MessageId>,
                                              config: DomainConfig)
    requires forall id | id in seen :: Seen(s, id)
    ensures Run(s, inputs, config) == Run(s, WithoutRepeats(inputs, seen), config)
    decreases |inputs|
  {
    if inputs != [] {
      var id := MessageIdOf(inputs[0]);
      var rest := inputs[1..];
      var n := Step(s, inputs[0], config);
      if id.Some? && id.value in seen {
        SeenIsIgnored(s, inputs[0], config);
        RepeatsIgnoredFrom(s, rest, seen, config);
        hide Step;
      } else {
        var more := if id.Some? then seen + {id.value} else seen;
        forall x | x in more ensures Seen(n, x) {
          StepMarks(s, inputs[0], config, x);
        }
        RepeatsIgnoredFrom(n, rest, more, config);
        hide Step;
        var kept := WithoutRepeats(inputs, seen);
        assert kept == [inputs[0]] + WithoutRepeats(rest, more);
        assert kept[1..] == WithoutRepeats(rest, more);
      }
    }
  }

  /**
   Deleting every acknowledgement, telemetry report or handshake whose id occurred earlier in the list leaves
   the final state unchanged, logs and therefore emitted events included.
   */
  lemma AtLeastOnceIsExactlyOnce(s: DomainState, inputs: seq<Input>, config: DomainConfig)
    ensures Run(s, inputs, config) == Run(s, WithoutRepeats(inputs, {}), config)
  {
    hide Step, Run;
    RepeatsIgnoredFrom(s, inputs, {}, config);
  }

  /** After a run from the initial state exactly the ids of the delivered messages have been seen. */
  lemma {:induction false} SeenIsDelivered(s: DomainState, inputs: seq<Input>, config: DomainConfig, id: MessageId)
    ensures Seen(Run(s, inputs, config), id) <==>
              Seen(s, id) || exists k | 0 <= k < |inputs| :: MessageIdOf(inputs[k]) == Some(id)
    decreases |inputs|
  {
    if inputs != [] {
      StepMarks(s, inputs[0], config, id);
      SeenIsDelivered(Step(s, inputs[0], config), inputs[1..], config, id);
      hide Step, Seen;
      if exists k | 0 <= k < |inputs| :: MessageIdOf(inputs[k]) == Some(id) {
        var k :| 0 <= k < |inputs| && MessageIdOf(inputs[k]) == Some(id);
        assert 0 < k ==> inputs[1..][k - 1] == inputs[k];
      }
    }
  }
}
