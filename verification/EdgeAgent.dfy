/** The edge side of the protocol: how a simulator turns commands and timers into messages. */
module EdgeAgent {
  import opened Texts
  import opened FleetState
  import opened Dispatch

  datatype EdgeState = EdgeState(
    robotId: Id, edgeSessionId: Id, edgeAgentVersion: Id, batteryPercent: real, lastSeenCommandSequence: nat,
    lastAcknowledgedCommandId: Option<Id>, currentMissionId: Option<Id>, reportedLifecycle: Option<Lifecycle>,
    lastTelemetryObservedAt: Option<Time>, reconnectHandshakeSent: bool)

  datatype EdgeMessage =
    | HelloMessage(hello: Hello)
    | AckMessage(ack: Ack)
    | TelemetryMessage(telemetry: TelemetryReport)
    | HandshakeMessage(handshake: HandshakeReport)

  datatype EdgeStep = EdgeStep(state: EdgeState, outbound: Option<EdgeMessage>)

  function InitialEdge(robotId: Id, edgeSessionId: Id, edgeAgentVersion: Id, now: Time): EdgeState {
    EdgeState(robotId, edgeSessionId, edgeAgentVersion, 80.0, 0, None, None, None, Some(now), false)
  }

  function CreateHello(e: EdgeState): EdgeMessage {
    HelloMessage(Hello(Some(e.edgeAgentVersion), Some(e.lastSeenCommandSequence)))
  }

  /** One heartbeat; the pose it carries is stepped in `Pose`. */
  function CreateTelemetry(e: EdgeState, now: Time, eventId: Id, pose: Pose2D): EdgeStep {
    EdgeStep(
      e.(lastTelemetryObservedAt := Some(now)),
      Some(TelemetryMessage(TelemetryReport(
        eventId, e.robotId, now, now, pose, e.batteryPercent, OK, ONLINE, e.currentMissionId,
        e.lastAcknowledgedCommandId, e.lastSeenCommandSequence, e.edgeAgentVersion))))
  }

  /** Nothing is sent without a mission to report and an acknowledged command. */
  function CreateHandshake(e: EdgeState, now: Time, sessionId: Id): EdgeStep {
    var next := e.(edgeSessionId := sessionId, reconnectHandshakeSent := true, lastTelemetryObservedAt := Some(now));
    if next.currentMissionId.None? || next.lastAcknowledgedCommandId.None? then EdgeStep(next, None)
    else
      EdgeStep(next, Some(HandshakeMessage(HandshakeReport(
        next.robotId, sessionId, now, next.lastSeenCommandSequence, next.lastAcknowledgedCommandId,
        next.currentMissionId, Some(next.reportedLifecycle.Or(RUNNING)), now, next.edgeAgentVersion))))
  }

  const FOR_ROBOT: Text := Ascii("command robotId ")
  const NOT_ROBOT: Text := Ascii(" does not match simulator robotId ")
  const UNSUPPORTED: Text := Ascii("unsupported simulator command type: ")

  /** An acknowledgement echoes the command's robot and sequence, not the edge's. */
  function CommandAckFor(c: Command, now: Time, ackId: Id, status: AckStatus, reason: Option<Id>): EdgeMessage
    requires 1 <= c.sequence
  {
    AckMessage(Ack(ackId, c.commandId, c.robotId, status, now, c.sequence, reason, c.correlationId, c.commandId))
  }

  function NoteSeen(e: EdgeState, c: Command, now: Time): EdgeState
    requires 1 <= c.sequence
  {
    e.(lastSeenCommandSequence := Max(e.lastSeenCommandSequence, c.sequence), lastTelemetryObservedAt := Some(now))
  }

  function ApplyAccepted(e: EdgeState, c: Command, now: Time): EdgeState
    requires 1 <= c.sequence
  {
    var seen := NoteSeen(e, c, now).(lastAcknowledgedCommandId := Some(c.commandId));
    if c.commandType.CancelMission? then
      seen.(currentMissionId := None, reportedLifecycle := Some(CANCELLED))
    else
      seen.(currentMissionId := Some(c.missionId), reportedLifecycle := Some(RUNNING), reconnectHandshakeSent := false)
  }

  /** A command for another robot is refused without being noted as seen. */
  function HandleCommand(e: EdgeState, c: Command, now: Time, ackId: Id): EdgeStep
    requires 1 <= c.sequence
  {
    if c.robotId != e.robotId then
      EdgeStep(e, Some(CommandAckFor(c, now, ackId, Rejected, Some(FOR_ROBOT + c.robotId + NOT_ROBOT + e.robotId))))
    else if !c.commandType.GoToPose? && !c.commandType.CancelMission? then
      EdgeStep(NoteSeen(e, c, now),
               Some(CommandAckFor(c, now, ackId, Rejected, Some(UNSUPPORTED + TypeText(c.commandType)))))
    else
      EdgeStep(ApplyAccepted(e, c, now), Some(CommandAckFor(c, now, ackId, Accepted, None)))
  }

  /******* What it sends *******/

  const ASKED_FOR: Text := Ascii("command robotId ")
  const BUT_IS: Text := Ascii(" does not match simulator robotId ")
  const CANNOT: Text := Ascii("unsupported simulator command type: ")

  /** A motion to a pose or a cancellation for this robot. */
  predicate CanDo(e: EdgeState, c: Command) {
    c.robotId == e.robotId && c.commandType in {GoToPose, CancelMission}
  }

  /** Every command is answered, with its own robot, number and conversation; exactly those it can do are accepted. */
  lemma AnswersExactly(e: EdgeState, c: Command, now: Time, ackId: Id)
    requires 1 <= c.sequence
    ensures var out := HandleCommand(e, c, now, ackId).outbound;
            && out.Some? && out.value.AckMessage?
            && var a := out.value.ack;
               && a.ackId == ackId && a.commandId == c.commandId && a.causationId == c.commandId
               && a.robotId == c.robotId && a.lastSeenCommandSequence == c.sequence && a.receivedAt == now
               && a.correlationId == c.correlationId
               && a.status == (if CanDo(e, c) then Accepted else Rejected)
               && a.reason
                  == (if CanDo(e, c) then None
                      else if c.robotId == e.robotId then Some(CANNOT + TypeText(c.commandType))
                      else Some(ASKED_FOR + c.robotId + BUT_IS + e.robotId))
  {
  }

  /** A new edge has seen and done nothing, and its hello says which agent it is and what it has seen. */
  lemma StartsExactly(robotId: Id, edgeSessionId: Id, edgeAgentVersion: Id, now: Time, later: EdgeState)
    ensures var e := InitialEdge(robotId, edgeSessionId, edgeAgentVersion, now);
            && e.robotId == robotId && e.edgeSessionId == edgeSessionId && e.edgeAgentVersion == edgeAgentVersion
            && e.lastSeenCommandSequence == 0 && e.lastAcknowledgedCommandId == None && e.currentMissionId == None
            && e.reportedLifecycle == None && e.lastTelemetryObservedAt == Some(now) && !e.reconnectHandshakeSent
    ensures var hello := CreateHello(later);
            && hello.HelloMessage? && hello.hello.edgeAgentVersion == Some(later.edgeAgentVersion)
            && hello.hello.lastSeenCommandSequence == Some(later.lastSeenCommandSequence)
  {
  }

  /** A heartbeat says that all is well and tells what the edge knows. */
  lemma BeatsExactly(e: EdgeState, now: Time, eventId: Id, pose: Pose2D)
    ensures var out := CreateTelemetry(e, now, eventId, pose).outbound;
            && out.Some? && out.value.TelemetryMessage?
            && var t := out.value.telemetry;
               && t.eventId == eventId && t.robotId == e.robotId && t.observedAt == now && t.receivedAt == now
               && t.pose == pose && t.batteryPercent == e.batteryPercent && t.health == OK
               && t.connectionState == ONLINE && t.currentMissionId == e.currentMissionId
               && t.lastAcknowledgedCommandId == e.lastAcknowledgedCommandId
               && t.lastSeenCommandSequence == e.lastSeenCommandSequence && t.edgeAgentVersion == e.edgeAgentVersion
  {
  }

  /** A handshake is sent exactly when there is a mission and a command to report, under its own new session. */
  lemma ShakesExactly(e: EdgeState, now: Time, sessionId: Id)
    ensures var out := CreateHandshake(e, now, sessionId).outbound;
            && (out.Some? <==> e.currentMissionId.Some? && e.lastAcknowledgedCommandId.Some?)
            && (out.Some? ==>
                  && out.value.HandshakeMessage?
                  && var h := out.value.handshake;
                     && h.robotId == e.robotId && h.edgeSessionId == sessionId && h.connectedAt == now
                     && h.lastTelemetryObservedAt == now && h.lastSeenCommandSequence == e.lastSeenCommandSequence
                     && h.lastAcknowledgedCommandId == e.lastAcknowledgedCommandId
                     && h.reportedMissionId == e.currentMissionId
                     && h.reportedLifecycle
                        == (if e.reportedLifecycle.Some? then e.reportedLifecycle else Some(RUNNING))
                     && h.edgeAgentVersion == e.edgeAgentVersion)
  {
  }

  /** What the edge keeps track of beside its commands, after any message. */
  lemma KeepsExactly(e: EdgeState, event: EdgeEvent)
    ensures var n := Handle(e, event).state;
            var taken := event.Takes? && 1 <= event.c.sequence && event.c.robotId == e.robotId;
            && n.robotId == e.robotId && n.edgeAgentVersion == e.edgeAgentVersion
            && n.batteryPercent == e.batteryPercent
            && n.edgeSessionId == (if event.Shakes? then event.sessionId else e.edgeSessionId)
            && n.lastTelemetryObservedAt
               == (if event.Takes? && !taken then e.lastTelemetryObservedAt else Some(event.now))
            && n.reconnectHandshakeSent
               == (event.Shakes?
                   || (e.reconnectHandshakeSent && !(taken && event.c.commandType == GoToPose)))
            && n.reportedLifecycle
               == if !taken || !CanDo(e, event.c) then e.reportedLifecycle
                  else if event.c.commandType == CancelMission then Some(CANCELLED)
                  else Some(RUNNING)
  {
  }

  /******* What an edge reports, in terms of everything that has happened to it *******/

  datatype EdgeEvent =
    | Takes(c: Command, now: Time, ackId: Id)
    | Beats(now: Time, eventId: Id, pose: Pose2D)
    | Shakes(now: Time, sessionId: Id)

  /** A command without a positive sequence does not pass the edge's own parser. */
  function Handle(e: EdgeState, event: EdgeEvent): EdgeStep {
    match event
    case Takes(c, now, ackId) => if 1 <= c.sequence then HandleCommand(e, c, now, ackId) else EdgeStep(e, None)
    case Beats(now, eventId, pose) => CreateTelemetry(e, now, eventId, pose)
    case Shakes(now, sessionId) => CreateHandshake(e, now, sessionId)
  }

  function History(e: EdgeState, events: seq<EdgeEvent>): EdgeState {
    if events == [] then e else Handle(History(e, events[..|events| - 1]), events[|events| - 1]).state
  }

  /** The commands addressed to this robot that the edge can carry out. */
  predicate Accepts(robotId: Id, event: EdgeEvent) {
    event.Takes? && 1 <= event.c.sequence && event.c.robotId == robotId
    && (event.c.commandType.GoToPose? || event.c.commandType.CancelMission?)
  }

  /** The last accepted command. */
  function LastAccepted(robotId: Id, events: seq<EdgeEvent>): Option<Command> {
    if events == [] then None
    else if Accepts(robotId, events[|events| - 1]) then Some(events[|events| - 1].c)
    else LastAccepted(robotId, events[..|events| - 1])
  }

  /** The largest sequence among the commands addressed to this robot, accepted or not. */
  function LargestSeen(robotId: Id, events: seq<EdgeEvent>): nat {
    if events == [] then 0
    else
      var last, before := events[|events| - 1], LargestSeen(robotId, events[..|events| - 1]);
      if last.Takes? && 1 <= last.c.sequence && last.c.robotId == robotId then Max(before, last.c.sequence) else before
  }

  /** The edge acknowledges `last` and works on its mission unless it was a cancellation. */
  predicate Remembers(e: EdgeState, robotId: Id, last: Option<Command>, seen: nat) {
    && e.robotId == robotId && e.lastSeenCommandSequence == seen
    && e.lastAcknowledgedCommandId == (if last.Some? then Some(last.value.commandId) else None)
    && e.currentMissionId
       == (if last.Some? && last.value.commandType.GoToPose? then Some(last.value.missionId) else None)
    && (e.currentMissionId.Some? ==> e.reportedLifecycle == Some(RUNNING))
  }

  lemma RemembersNext(e: EdgeState, robotId: Id, last: Option<Command>, seen: nat, event: EdgeEvent)
    requires Remembers(e, robotId, last, seen)
    ensures Remembers(
              Handle(e, event).state, robotId, if Accepts(robotId, event) then Some(event.c) else last,
              if event.Takes? && 1 <= event.c.sequence && event.c.robotId == robotId then Max(seen, event.c.sequence)
              else seen)
  {
    hide CommandAckFor;
  }

  /**
   A fresh edge acknowledges the last command it accepted and works on that command's mission unless it was a
   cancellation; what it has seen is the largest sequence of its own commands.
   */
  lemma {:induction false} EdgeRemembers(robotId: Id, session: Id, version: Id, start: Time, events: seq<EdgeEvent>)
    ensures Remembers(History(InitialEdge(robotId, session, version, start), events), robotId,
                      LastAccepted(robotId, events), LargestSeen(robotId, events))
  {
    if events != [] {
      var before, last := events[..|events| - 1], events[|events| - 1];
      EdgeRemembers(robotId, session, version, start, before);
      RemembersNext(History(InitialEdge(robotId, session, version, start), before), robotId,
                    LastAccepted(robotId, before), LargestSeen(robotId, before), last);
      hide Remembers, Handle, Accepts;
    }
  }

  /**
   After accepting a cancellation, and until it accepts another motion command, an edge sends no handshake and
   its telemetry names no mission; otherwise both report the mission of the last motion command, as running.
   */
  lemma ReportsFollowCommands(robotId: Id, session: Id, version: Id, start: Time, events: seq<EdgeEvent>,
                              now: Time, id: Id, pose: Pose2D)
    ensures var e := History(InitialEdge(robotId, session, version, start), events);
            var last := LastAccepted(robotId, events);
            var moving := last.Some? && last.value.commandType.GoToPose?;
            var beat, shake := CreateTelemetry(e, now, id, pose).outbound, CreateHandshake(e, now, id).outbound;
            && beat.Some? && beat.value.TelemetryMessage?
            && beat.value.telemetry.currentMissionId == (if moving then Some(last.value.missionId) else None)
            && (shake.Some? <==> moving)
            && (moving ==> shake.value.HandshakeMessage?
                           && shake.value.handshake.reportedMissionId == Some(last.value.missionId)
                           && shake.value.handshake.reportedLifecycle == Some(RUNNING)
                           && shake.value.handshake.lastSeenCommandSequence == LargestSeen(robotId, events))
  {
    EdgeRemembers(robotId, session, version, start, events);
    hide History, LastAccepted, LargestSeen;
  }
}
