# Verified model of the fleet control plane

This project models the parts of the fleet control plane whose correctness depends on whole runs rather than on
one function, and proves properties of the model. It needs only Dafny 4.11:

    dafny verify dfyconfig.toml

## What is modelled

**The fleet command protocol.** `FleetState` holds the aggregate every reducer takes and returns; `Dispatch`,
`Cancel`, `Acknowledge`, `Telemetry` and `Reconnect` are the eight reducers, branch by branch; `FleetRun` makes
them, together with the service's own update on an edge hello, one step function and defines runs of any length.
Beside them stands a second description of the same behaviour, and the two are proved equal on all inputs:
`Decisions` says on the message and the state alone what each reducer decides, and `Lifecycles`, `Progress` and
`Records` are organised by what changes instead of by who changes it: one table over all inputs for each part of a
mission, of a robot, of the bookkeeping and of the two logs.
On top of it: `Lifecycles` and `Gates` (what the stored lifecycles and commands say of their past), `Idempotency`,
`Sequences`, `ExactlyOnce`, `CancelFinality`, `BlockedFinality` and `SingleAssignment`. `Scenarios` holds two runs
of the reducers that go wrong.

**The edge.** `EdgeAgent` is the simulator's message handling. `EdgeComposition` puts the reducers, any number of
edges and a network that loses, repeats and reorders messages together; `ComposedFinality` carries the cancellation
theorem over to it, `EdgeReports` says what edges report, and `InOrderFinality` what in-order delivery adds;
`ComposedScenarios` holds two runs of the composition that go wrong. `Pose` is the simulated motion.

**Persistence.** `Columns` gives the forms the columns accept. `Database` gives the tables, their constraints and the
statements, each of which is accepted exactly when its values fit and the constraints hold after it; `Repository` runs
the whole-state read and replacement in transactions; `OrderedRows` restores stored logs and `Outbox` infers what is
new. `ColumnSteps` and `StorableRuns` say exactly which steps can be stored and read again, and `StoredRuns` what a
run of updates stores and queues. `OutboxQueue` and `EventWorker` are the claim, publish and retry queue under any
number of workers.

**Text and small stateful cores.** `Json`, `JsonReading` and `JsonCanonical` treat the canonical serialiser as a
printer with a reader, and `Signatures` gives the texts it makes of requests; `SqlText` does the same for dollar
quotes, literals and statements. `IdempotencyCache` is the bounded
response cache, `TaskQueue` the per-robot chain of tasks, `Migrations` and `MigrationRunner` the migration plan and
runners that share a database.

## How to read the model

- Text is a sequence of UTF-16 code units, compared and sorted as JavaScript does. Ids are non-empty texts, because
  the wire validators refuse or drop empty ones. Timestamps are integers of milliseconds. Event types, reasons and
  the paths of payload issues are enumerations.
- A JSON number stands for itself by its canonical decimal text. Object keys are distinct.
- Dates, random ids, clocks, batch contents and replies from other processes are parameters. SHA-256 is any function
  whose digests have 64 hexadecimal digits, and the key order of its input any strict order; nothing else is used.
- What a column accepts is what PostgreSQL documents for its type, and how a value reaches it: a text is sent in
  UTF-8, where an unpaired surrogate becomes U+FFFD; `jsonb` refuses U+0000 and unpaired surrogates, and every
  entity and event row also holds its whole content as `jsonb`; a number is sent as its decimal text.
- While the stored state can be read its counters are safe integers, so the reducers' integer arithmetic is exact.
- Concurrency is interleaving: a SQL statement, a locked transaction, a step of a worker, a promise callback and a
  message delivery are atomic, and anything may happen between two of them.
- In `EdgeComposition` a message that was ever sent may arrive any number of times, in any order, or never; any
  stored command may reach any edge. Edges do not restart. The platform's refusal of a message about another robot
  than its connection's is part of the model, so commands that reach a wrong edge do no harm.
- A method of a class is proved against a function of the old state; the theorems are about those functions.

## Where the code does less than one might expect

Each of these is proved as an exact condition, with a concrete input or run that fails it.

- *A terminal mission can come back.* Neither the acknowledgement reducer nor the reconnect decision looks at
  whether the mission is terminal (`CancelFinality.RevivalExact`, `Scenarios.CancelledMissionReturns`,
  `ComposedScenarios.RedeliveryRevives`). For cancelled missions the gap check prevents it when commands are delivered
  in order, repeats of the latest one included (`InOrderFinality.InOrderCancelIsFinal`).
- *A robot can own two active missions.* An acknowledgement rebuilds the robot's mission pointer from the mission
  it acknowledges, so a late one for an older mission frees or claims a busy robot
  (`SingleAssignment.AssignmentExact`, `Scenarios.TwoActiveMissions`, `ComposedScenarios.LateAcknowledgementSplits`).
- *Some inputs that the validators take cannot be stored.* A refused dispatch stores a mission even when the robot is
  unknown, and the mission table's foreign key then rejects the whole update. Telemetry with a fraction of a percent
  of battery and texts with U+0000 are rejected by the columns (`ColumnSteps.StepFits`, `StorableRuns.StepStorable`,
  `StorableRuns.RiskyDispatchStrands`, `StorableRuns.FractionalBatteryRefused`, `StorableRuns.NulReasonRefused`).
- *Some states can be stored and not read.* A `bigint` column takes counters that the reader then refuses, and every
  update reads first, so such an update is the last one (`StorableRuns.StepReadable`, `StoredRuns.LastUpdate`,
  `StoredRuns.UnsafeTelemetryFreezes`).
- *Some acknowledgements are forgotten.* The lists of processed ids are `text[]` and lose unpaired surrogates, so an
  acknowledgement with such an id is processed again when it is repeated (`StoredRuns.RememberedExactly`).
- *Dollar quoting by itself is not total.* A text that ends in the delimiter without its last dollar sign does not
  survive, but every generated transaction ends in a semicolon and does (`SqlText.DollarQuoteRoundTrip`,
  `Migrations.FormatMigrationTransaction`).

## Model

| member | source | states |
|---|---|---|
| `JsonReading.ReadPrinted` | packages/fleet-domain/src/dispatch.ts:491-505 | A JSON reader (RFC 8259, sections 3 to 7) run on the serialised text of any value, whatever follows it, gets back that value with its object keys sorted, and stops exactly at its end: the text is uniquely decodable. |
| `JsonCanonical.PrintExact` | packages/fleet-domain/src/dispatch.ts:481-505 | Printed with keys in any strict order, two JSON trees have the same text if and only if they are equal up to the order of object keys. |
| `JsonCanonical.PrintCanonical` | apps/fleet-platform/src/server.ts:1102-1116 | Serialising a value and serialising its key-sorted form give the same text, for every tree. |
| `JsonCanonical.ReadBack` | packages/fleet-domain/src/cancel.ts:266-280 | Reading the serialised text of a value gives an equivalent value and leaves nothing over. |
| `KeySort.SortExact` | packages/fleet-domain/src/dispatch.ts:497-501 | With distinct keys, two member lists sort to the same list exactly when they have the same members, under any strict order of the keys. |
| `Idempotency.DispatchSignatureExact` | packages/fleet-domain/src/dispatch.ts:481-489 | Two dispatch requests have the same signature exactly when they name the same mission, robot and type with payloads equal up to key order. |
| `Idempotency.CancelSignatureExact` | packages/fleet-domain/src/cancel.ts:257-280 | Two cancellations have the same signature exactly when they name the same mission and reason. |
| `Signatures.DispatchSignatureIs` | packages/fleet-domain/src/dispatch.ts:481-505 | The stored text itself: the canonical JSON of mission, payload, robot and type, with the keys in order of code units and the type in the words of the protocol. |
| `Signatures.CancelSignatureIs` | packages/fleet-domain/src/cancel.ts:257-280 | The stored text of a cancellation, in the same way. |
| `Idempotency.SignaturesDisjoint` | packages/fleet-domain/src/cancel.ts:257-264 | A cancel signature never equals a dispatch signature. |
| `FleetRun.StepEffect` | packages/fleet-domain/src/events.ts:11-22 | Every reducer changes exactly the entries its branch names and appends one record to both logs or to neither; nothing else in the aggregate moves. |
| `FleetRun.StepAppends` | packages/fleet-domain/src/events.ts:11-50 | The logs are append-only, grow by at most one record each per step and by the same amount, and every record keeps carrying its position. |
| `FleetRun.StepIssues` | packages/fleet-domain/src/dispatch.ts:215-321 | Every step that stores a command stores it under a fresh id, with its idempotency record and its mission, with the counter value as its sequence, and only for a key no stored record settles. |
| `FleetRun.StepMissions` | packages/fleet-domain/src/dispatch.ts:382-440 | Any other mission a step writes keeps its robot, its current command and its last sequence, or is the inactive snapshot of a refused dispatch. |
| `Idempotency.StepIdempotency` | packages/fleet-domain/src/dispatch.ts:87-109 | Every input keeps the invariant that records and commands point at each other, and never replaces a stored command or record. |
| `Idempotency.OneCommandPerKey` | packages/fleet-domain/src/dispatch.ts:290-321 | In every reachable state an idempotency key belongs to at most one command, and its record names that command and its existing mission. |
| `Idempotency.AcceptedDispatchReplays` | packages/fleet-domain/src/dispatch.ts:87-109 | After an accepted dispatch and any further steps, the same key replays the same command with the state unchanged if and only if the request is the same up to payload key order; any other request is a conflict that only adds to the logs. |
| `Idempotency.AcceptedCancelReplays` | packages/fleet-domain/src/cancel.ts:69-96 | The same for an accepted cancellation; a request that differs is refused and only the logs grow. |
| `Idempotency.KindsNeverReplayEachOther` | packages/fleet-domain/src/cancel.ts:82-96 | A key stored for a dispatch is never replayed by a cancellation, nor the other way round. |
| `Sequences.StepSequences` | packages/fleet-domain/src/cancel.ts:117-120 | Every input keeps per-robot sequences gapless, used once and covered by a counter, across the dispatch counter and the cancel fallback. |
| `Sequences.GaplessSequences` | packages/fleet-domain/src/dispatch.ts:314-317 | In every reachable state the commands of a robot are in bijection with a contiguous interval of positive integers ending at its next sequence minus one; a robot without a counter has no commands. |
| `ExactlyOnce.SeenIsDelivered` | packages/fleet-domain/src/ack.ts:44-55 | After any run, the ids in the three seen lists are exactly those of the acknowledgements, telemetry reports and handshakes delivered. |
| `ExactlyOnce.NoRepeatsLeft` | packages/fleet-domain/src/telemetry.ts:42-49 | The filtered input list contains no edge message twice. |
| `ExactlyOnce.AtLeastOnceIsExactlyOnce` | packages/fleet-domain/src/reconnect.ts:127-134 | For any input list, deleting every acknowledgement, telemetry report or handshake whose id occurred earlier leaves the final state, logs included, unchanged. |
| `Lifecycles.LifecycleExact` | packages/fleet-domain/src/ack.ts:95-110 | The mission state machine: every mission, known or not, has after every input exactly the lifecycle given by one transition table over all reducers. |
| `Lifecycles.LifecyclesEarned` | packages/fleet-protocol/src/types.ts:35-50 | In every reachable state no mission is CREATED, VALIDATED, ASSIGNED or ACKNOWLEDGED; a CANCEL_REQUESTED or CANCELLED one has a stored CANCEL_MISSION command of its own, and a DISPATCHED or TIMED_OUT one a stored command. |
| `Decisions.PayloadExactly` | packages/fleet-protocol/src/types.ts:258-297 | A payload is valid if and only if it is an object and has, for GO_TO_POSE, an object `target` with numbers `x`, `y` and `theta` and, for CANCEL_MISSION, a non-empty string `reason`; the listed issues are exactly what is missing. |
| `Decisions.TargetExactly` | packages/fleet-domain/src/dispatch.ts:456-479 | The pose a mission snapshot gets is the one its GO_TO_POSE payload names, coordinate by coordinate; any other request gives none. |
| `Decisions.DispatchExactly` | packages/fleet-domain/src/dispatch.ts:87-213 | A dispatch is a conflict if and only if its key is stored with another signature, a replay of the stored command if and only if it is stored with the same one and both its command and its mission are still there, and accepted if and only if all conditions on the request and its robot hold, spelled out by type, class, battery and connection. |
| `Decisions.RejectedExactly` | packages/fleet-domain/src/dispatch.ts:111-213 | A new dispatch is rejected for a reason if and only if that is the first closed gate in the order of the reducer, with the payload issues exactly when the payload gate closes. |
| `Gates.AcceptedExactly` | packages/fleet-domain/src/dispatch.ts:87-321 | A dispatch is accepted if and only if the key is unused or unsettled for the same request, the command id is fresh, the type allowed, the payload valid, the time window right, the robot of a GO_TO_POSE, RESUME_MISSION, RISKY or EMERGENCY_STOP request is online and not below the battery threshold, it works on no other active mission, and no reconciliation is in progress; its command is then stored with the requested mission, robot, type, payload, times and class. |
| `Decisions.CancelExactly` | packages/fleet-domain/src/cancel.ts:69-116 | A cancellation is rejected for the first of its gates that is closed, replayed exactly when its key is stored for the same request with command and mission, and accepted exactly when the mission is active and the request new and in time. |
| `Gates.CancelAcceptedExactly` | packages/fleet-domain/src/cancel.ts:69-116 | A cancellation is accepted if and only if the mission is active and the request is new, in time and not settled or contradicted by its key. |
| `Gates.EveryCommandPassed` | packages/fleet-domain/src/dispatch.ts:111-213 | Over every run: each command that is ever stored was issued at one of the inputs, inside its time window; every GO_TO_POSE or RESUME_MISSION command and every one of class RISKY or EMERGENCY_STOP went to an online robot whose known battery was not below the threshold; and it was an allowed command with a valid payload for a robot free to take it, or a cancellation of an active mission. |
| `Decisions.AckExactly` | packages/fleet-domain/src/ack.ts:44-93 | An acknowledgement is processed if and only if its id is new, its command and that command's mission are stored, and it claims no less than the mission has already acknowledged; it is a duplicate, unknown or stale exactly when one of these fails, in this order, and then leaves at most its id behind. |
| `Decisions.TimeoutExactly` | packages/fleet-domain/src/ack.ts:221-254 | A mission times out if and only if it is DISPATCHED with a current command that is stored and has expired by now; otherwise the answer says which of these fails and nothing changes. |
| `Decisions.FreshnessExactly` | packages/fleet-domain/src/telemetry.ts:163-206 | A freshness check gives the robot the worst state its silence justifies, and does something if and only if that is not the state it has. |
| `Decisions.SilenceWorsens` | packages/fleet-domain/src/policies.ts:47-62 | Whatever the thresholds, a longer silence never gives a better connection state. |
| `Lifecycles.ViewExact` | packages/fleet-domain/src/telemetry.ts:51-79 | The robot state machine: connection, mission pointer and last seen sequence of every robot after every input, by one table over all reducers and the edge hello. |
| `Decisions.HandshakeExactly` | packages/fleet-domain/src/reconnect.ts:262-323 | A handshake is sent to manual review if and only if it reports an unknown mission, one that is not the robot's current one in the cloud, a command that expired unacknowledged, or leaves an unexplained gap, with the first of these as reason; otherwise it is decided as succeeded exactly when it reports SUCCEEDED, as failed exactly when it reports FAILED, and as resumed in all other cases. |
| `Progress.MissionExact` | packages/fleet-domain/src/ack.ts:95-110 | The whole mission snapshot after every input, known mission or not: purpose, last command, acknowledged progress, operational status, failure reason and time stamp by one table each over all reducers, together with the lifecycle table. |
| `Progress.RobotExact` | packages/fleet-domain/src/reconnect.ts:157-186 | The whole robot snapshot after every input, known robot or not, in the same way: what was sighted, what it acknowledged, when it was written, and its view. |
| `Progress.BooksExact` | packages/fleet-domain/src/dispatch.ts:290-321 | The bookkeeping after every input: an accepted request adds its command as requested, its key, and one to its robot's counter; a message with an id is noted once under it; nothing else changes. |
| `Records.LogsExact` | packages/fleet-domain/src/events.ts:11-50 | Every input appends to both logs exactly the record its outcome calls for, or nothing: kind, subject, actor, the mission, robot and command named, times, conversation, cause, and what it says happened; the reducer hands out the same records. |
| `Records.LogTells` | packages/fleet-domain/src/events.ts:11-22 | Event sourcing: in every reachable state the domain events alone determine the lifecycle of every mission and the next sequence of every robot, by folding over the log. |
| `Progress.RequestsAnswered` | packages/fleet-domain/src/dispatch.ts:323-329 | The answers to dispatches and cancellations carry the command and the mission as they are stored afterwards; replays change nothing, and only a conflict is refused without storing a mission. |
| `Progress.HandshakesAnswered` | packages/fleet-domain/src/reconnect.ts:127-134 | A handshake is ignored as a duplicate exactly when its session is known, and otherwise answered with its decision and the mission it concerns as stored afterwards. |
| `CancelFinality.RevivalExact` | packages/fleet-domain/src/ack.ts:81-110 | An inactive mission is active after a step if and only if the step is an accepted dispatch for its id, a processed ACCEPTED or DUPLICATE acknowledgement of one of its commands that is not a cancellation, or a new handshake about it that meets the conditions for resuming. |
| `Scenarios.CancelledMissionReturns` | packages/fleet-domain/src/reconnect.ts:262-323 | Concretely, by a run from the empty state: dispatched, cancelled and reported as cancelled by its robot, a mission is made RUNNING again by a handshake that still reports it and has seen the cancellation. |
| `CancelFinality.StepOrder` | packages/fleet-domain/src/cancel.ts:98-142 | When new dispatches use fresh mission ids, every step keeps commands with known missions of their own robot and puts cancellations after every other command of the mission. |
| `CancelFinality.StepClosed` | packages/fleet-domain/src/ack.ts:81-93 | A step that gives a closed mission no new command, echoes command sequences and does not resume it keeps it closed: inactive, with an acknowledged sequence above all its commands except cancellations. |
| `CancelFinality.CancelIsFinal` | packages/fleet-domain/src/ack.ts:95-110 | Over every run: once a CANCEL_MISSION command has been acknowledged ACCEPTED or DUPLICATE and that acknowledgement has been processed, its mission is never active again, given fresh mission ids, acknowledgements that carry their own command's sequence, and no handshake about an inactive mission. |
| `ComposedFinality.HistoryFollows` | apps/cloud-edge-simulator/src/messages.ts:339-361 | In the composition with edges and a network, the hypothesis on acknowledgements is met by the edges themselves. |
| `ComposedFinality.ComposedCancelIsFinal` | apps/cloud-edge-simulator/src/messages.ts:286-309 | The same finality in the composed system, with hypotheses only on dispatches and on arriving handshakes; deliveries may be lost, repeated and reordered. |
| `EdgeReports.HandshakesReportCommands` | apps/cloud-edge-simulator/src/messages.ts:162-208 | In every reachable state of the composed system, each handshake ever sent reports the mission of a stored motion command for the sending robot, which is the command it has last acknowledged. |
| `InOrderFinality.NextAnswered` | apps/cloud-edge-simulator/src/messages.ts:286-325 | Every action of the composed system keeps this: an edge whose last seen sequence is that of a cancellation for it has sent an ACCEPTED acknowledgement of that cancellation. |
| `InOrderFinality.NextOrdered` | apps/cloud-edge-simulator/src/messages.ts:286-325 | Unless a cancellation is overtaken or a motion command follows it, every action keeps this: an edge that has acknowledged a cancellation has seen its sequence, does not work on that mission, and had reported it only with smaller sequences. |
| `InOrderFinality.ReporterLags` | packages/fleet-domain/src/reconnect.ts:299-308 | So a handshake that reports a mission whose cancellation has been taken always falls into the gap check: it claims a smaller sequence than the cloud has sent and another acknowledged command than the cloud knows. |
| `InOrderFinality.HeededCancelIsFinal` | apps/fleet-platform/src/service.ts:703-716 | Finality in the composed system with nothing asked of the handshakes, however late or repeated: given new mission ids, it is enough that no cancellation is overtaken by a later command before it is carried out and that no motion command reaches its edge once a cancellation of its mission has been seen; all other losses, repeats and reorderings are allowed. |
| `InOrderFinality.InOrderCancelIsFinal` | packages/fleet-domain/src/reconnect.ts:299-308 | In particular, new mission ids and in-order delivery of commands to each edge are enough, with the latest command repeated any number of times. |
| `ComposedScenarios.RedeliveryRevives` | apps/fleet-platform/src/service.ts:703-716 | That hypothesis is needed: in a run of the composed system from its start, in order until the cancellation has been heard, one repeat of the motion command makes the robot drive again, and its next handshake makes the mission active. |
| `BlockedFinality.UnsentExact` | packages/fleet-domain/src/dispatch.ts:382-440 | A refused mission, inactive and without any command, stays so through a step if and only if the step is not an accepted dispatch for its id or a new handshake about it that is decided as resume. |
| `BlockedFinality.BlockedIsFinal` | packages/fleet-domain/src/dispatch.ts:165-213 | Over every run with new mission ids in which handshakes report only missions that have commands: a mission blocked for safety is never active afterwards and no command is ever issued for it. |
| `BlockedFinality.ComposedBlockedIsFinal` | apps/cloud-edge-simulator/src/messages.ts:127-208 | In the composed system new mission ids alone are enough, whatever the network delivers: a mission blocked for safety is never active, gets no command, and no edge works on it. |
| `SingleAssignment.AssignmentExact` | packages/fleet-domain/src/ack.ts:112-149 | A step keeps every active mission under its robot's pointer if and only if the input names the robot's own mission, a condition on the message and the state before it. |
| `SingleAssignment.TelemetryAssigns` | packages/fleet-domain/src/telemetry.ts:66-70 | Telemetry keeps single assignment exactly when it is a repeat, names no mission, or names the robot's own active mission if there is one. |
| `SingleAssignment.HandshakeAssigns` | packages/fleet-domain/src/reconnect.ts:157-186 | A handshake keeps it exactly when it is a repeat, reports an unknown mission, or reports one for which the robot is free and, if resumed, that belongs to the robot or is already pointed at. |
| `SingleAssignment.DispatchAssigns` | packages/fleet-domain/src/dispatch.ts:192-203 | A dispatch always keeps single assignment: the gate on the current mission is strong enough. |
| `SingleAssignment.NeverTwoActive` | packages/fleet-domain/src/dispatch.ts:247-259 | Over every run whose edge messages name their robot's own mission, no robot owns two active missions and each active one is the one its robot points at. |
| `Scenarios.TwoActiveMissions` | packages/fleet-domain/src/ack.ts:124-126 | Without that hypothesis it fails: a five-step run from the empty state in which a late FAILED acknowledgement leaves one robot with two active missions. |
| `ComposedScenarios.LateAcknowledgementSplits` | packages/fleet-domain/src/ack.ts:112-149 | Simulator edges do not meet it either: a run of the composed system from its start, all in order, in which the acknowledgement of a timed-out mission arrives late and its robot owns two active missions. |
| `EdgeAgent.AnswersExactly` | apps/cloud-edge-simulator/src/messages.ts:211-269 | Every command is answered with its own robot, number and conversation; exactly the GO_TO_POSE and CANCEL_MISSION commands for this robot are accepted, and every other is rejected with the reason why. |
| `EdgeAgent.EdgeRemembers` | apps/cloud-edge-simulator/src/messages.ts:211-325 | After any events an edge acknowledges the last command it accepted, works on that mission unless it was a cancellation, and has seen the largest sequence of its own commands. |
| `EdgeAgent.ReportsFollowCommands` | apps/cloud-edge-simulator/src/messages.ts:127-208 | After accepting a cancellation, and until another motion command, an edge sends no handshake and its telemetry names no mission; otherwise both report the last motion command's mission. |
| `EdgeComposition.StepSeen` | packages/fleet-domain/src/telemetry.ts:61-64 | For every input, what the cloud has seen of a robot never decreases and rises at most to what an edge message about that robot claims. |
| `EdgeComposition.NextSound` | apps/cloud-edge-simulator/src/messages.ts:211-325 | Every action of the platform, an edge or the network keeps the invariant linking the cloud's knowledge, the edges' and every message ever sent. |
| `EdgeComposition.CloudNeverOutrunsEdge` | apps/fleet-platform/src/service.ts:192-224 | In every reachable state of the composition: cloud last seen <= edge last seen < the robot's next sequence, taken as 1 when unset. |
| `EdgeComposition.CloudSeenNeverDecreases` | packages/fleet-domain/src/reconnect.ts:177-180 | Along every execution of the composition the cloud's last seen sequence of a robot never decreases. |
| `EdgeComposition.AcksEchoCommands` | apps/cloud-edge-simulator/src/messages.ts:339-361 | Every acknowledgement an edge ever sends names a stored command and carries that command's own robot and sequence. |
| `EdgeComposition.ExecutionIsRun` | apps/fleet-platform/src/service.ts:256-304 | The platform inside any composition performs a run of the reducers, so every theorem about runs holds there. |
| `Pose.ScalarConverges` | apps/cloud-edge-simulator/src/messages.ts:500-506 | After k heartbeats the remaining distance on an axis is max(0, initial - k * step), approached from the same side: no overshoot. |
| `Pose.ArrivesExactly` | apps/cloud-edge-simulator/src/messages.ts:491-497 | The robot stands on its target after exactly the largest per-axis ceiling of distance over step, and from then on. |
| `OrderedRows.OrderRows` | packages/fleet-persistence/src/postgres-domain-state-repository.ts:944-973 | The method fails exactly when a bookmark is missing or repeated; otherwise it returns the bookmarked rows in bookmark order and then the leftovers in row order. |
| `OrderedRows.RestoredPermutes` | packages/fleet-persistence/src/postgres-domain-state-repository.ts:956-972 | With distinct row ids and distinct, present bookmarks the result is a permutation of the rows, in bookmark order. |
| `OrderedRows.StoredLogRoundTrip` | packages/fleet-persistence/src/postgres-domain-state-repository.ts:898-942 | Whatever order the database returns the rows in, the bookmarks of a stored log restore exactly that log. |
| `Outbox.PaddedInjective` | packages/fleet-domain/src/events.ts:48-50 | The zero-padded counter is injective, so positional ids are distinct. |
| `Outbox.DomainKeyIgnoresOrder` | packages/fleet-persistence/src/postgres-domain-state-repository.ts:1028-1056 | A dedupe key does not depend on the order in which the JSON lists its keys, whatever strict order the serialiser compares keys with. |
| `Outbox.DomainKeyHasId` | packages/fleet-persistence/src/postgres-domain-state-repository.ts:294-302 | Equal dedupe keys come from records with equal ids, for any hash with digests of fixed length. |
| `Outbox.SelectNewOutboxRecords` | packages/fleet-persistence/src/postgres-domain-state-repository.ts:218-243 | The method returns exactly the records whose key is not persisted, domain events first, each log in order. |
| `Outbox.SelectsAppended` | packages/fleet-persistence/src/postgres-domain-state-repository.ts:218-243 | One replacement selects exactly the appended records, even when the stored JSON came back in another key order. |
| `Database.NewRecordsFit` | packages/fleet-persistence/src/postgres-domain-state-repository.ts:218-291 | The outbox never adds a condition: when the columns accept the new state they accept every record selected for it. |
| `Database.Client.ClearDomainState` | packages/fleet-persistence/src/postgres-domain-state-repository.ts:305-314 | No statement of the clearing sequence violates a foreign key; only the detached fact logs and the outbox survive. |
| `Database.Client.ReplaceDomainState` | packages/fleet-persistence/src/postgres-domain-state-repository.ts:200-215 | The whole statement sequence succeeds if and only if the new state obeys the schema, and then leaves exactly that state, the old facts resolved against it and the longer outbox. |
| `Database.FactsPreserved` | packages/fleet-persistence/src/postgres-domain-state-repository.ts:317-392 | No acknowledgement, telemetry or session row is lost or changed, and each resolved reference equals its raw id exactly when the target row exists and is null otherwise. |
| `Database.MissionInserts` | packages/fleet-persistence/migrations/0001_core_schema.sql:63-84 | Inserting a mission succeeds exactly when its columns accept its values and its robot row exists. |
| `Database.CommandAccepted` | packages/fleet-persistence/migrations/0001_core_schema.sql:89-109 | A command row is accepted if and only if its columns fit, its mission and robot are there, and its number is positive and not used for the robot. |
| `Database.MissionsDeleted` | packages/fleet-persistence/src/postgres-domain-state-repository.ts:305-345 | The mission table can be emptied if and only if no command, key, acknowledgement or telemetry row refers to a mission any more: the reason for detaching first. |
| `Columns.PrintClean` | packages/fleet-domain/src/dispatch.ts:481-505 | The serialised text of any JSON tree, whatever its strings hold, is one that text and jsonb columns accept. |
| `ColumnSteps.StepFits` | packages/fleet-persistence/migrations/0001_core_schema.sql:14-112 | After a step of the reducers every value has a form its column accepts if and only if the input is one whose values do, a condition on the message and the state before it: integral battery from 0 to 100, no U+0000 and no unpaired surrogate in any text that is stored, bigint counters, times of the years 1 to 9999. |
| `Repository.PostgresRepository.ReadDomainState` | packages/fleet-persistence/src/postgres-domain-state-repository.ts:176-197 | Reading back the tables gives exactly the state stored last, whatever row order the queries return, and fails exactly when one of its counters is not a safe integer. |
| `Repository.PostgresRepository.Update` | packages/fleet-persistence/src/postgres-domain-state-repository.ts:135-144 | An update commits exactly when the stored state can be read and the schema accepts the reducer's result: its columns every value, its constraints every reference and key. Then the tables hold that result and the selected records are queued, otherwise nothing changes. |
| `Repository.UpdateBoth` | packages/fleet-persistence/src/repository.ts:37-62 | The durable repository and the in-memory baseline agree after an update that is taken exactly when no processed id has an unpaired surrogate, and after one that is refused exactly when the state did not change. |
| `Repository.LogsReadBack` | packages/fleet-persistence/src/postgres-domain-state-repository.ts:898-942 | Under the schema's uniqueness constraints both stored logs are restored completely and in order. |
| `StorableRuns.StepStorable` | packages/fleet-persistence/migrations/0001_core_schema.sql:14-112 | From a sound stored state that can be read, a step leaves a state the schema accepts if and only if its values fit the columns and it is not a refused dispatch for an unknown robot. |
| `StorableRuns.RiskyDispatchStrands` | packages/fleet-domain/src/dispatch.ts:167-176 | Concretely: any risky request for an unknown robot is refused by the reducer and its refusal cannot be stored. |
| `StorableRuns.FractionalBatteryRefused` | apps/fleet-platform/src/validation.ts:535-548 | Concretely: new telemetry with a battery of 71.5, which the validator takes, cannot be stored. |
| `StorableRuns.NulReasonRefused` | apps/fleet-platform/src/validation.ts:406-416 | Concretely: an acceptable cancellation whose reason is U+0000, which the validator takes, cannot be stored. |
| `StorableRuns.StepReadable` | packages/fleet-persistence/src/postgres-domain-state-repository.ts:1073-1081 | A step leaves a state that can be read again if and only if the counters it stores are safe integers, a condition on the message and the state before it. |
| `StoredRuns.StoredAsIs` | packages/fleet-persistence/src/repository.ts:28-60 | An update stores exactly the reducer's result if and only if the state can be read, the schema takes the input and a new acknowledgement id has no unpaired surrogate, or the step changes nothing anyway. |
| `StoredRuns.StoredRunExact` | packages/fleet-persistence/src/repository.ts:28-60 | Through the repository every stored state stays sound, refused updates included, and while every input is taken the stored run is the plain run of the reducers. |
| `StoredRuns.EveryRunIsStored` | packages/fleet-persistence/src/postgres-domain-state-repository.ts:135-144 | From the empty state, a run all of whose inputs meet these conditions is stored completely and can be read back. |
| `StoredRuns.LastUpdate` | packages/fleet-persistence/src/postgres-domain-state-repository.ts:1073-1118 | A step whose counters the columns take and the reader does not is the last: no update of any kind commits after it. |
| `StoredRuns.UnsafeTelemetryFreezes` | apps/fleet-platform/src/validation.ts:490-501 | Concretely, from the empty state: telemetry that claims command 2 to the power of 53 is stored, and every later run of updates leaves the state as it is. |
| `StoredRuns.RememberedExactly` | packages/fleet-persistence/src/postgres-domain-state-repository.ts:625-650 | A new acknowledgement that is stored is remembered as processed exactly when its id has no unpaired surrogate. |
| `StoredRuns.OutboxComplete` | packages/fleet-persistence/src/postgres-domain-state-repository.ts:135-144 | From an empty outbox, after any run of updates, rolled back ones included, the outbox holds exactly one row per domain and audit event that the stored state has gained, in log order, and none for older events or refused updates. |
| `StoredRuns.RunUpdates` | packages/fleet-persistence/src/postgres-domain-state-repository.ts:115-168 | The repository driven by any list of inputs ends in the stored run, with exactly the gained events in its outbox table. |
| `OutboxQueue.OutboxStore.ClaimBatch` | packages/fleet-persistence/src/postgres-outbox-store.ts:85-119 | Claims the first rows in queue order and stamps exactly those with the worker, the time and one more attempt: each was unpublished, unlocked, due by then and not worked on by another statement, and unless the batch is full every such row is claimed. |
| `OutboxQueue.OldestUnique` | packages/fleet-persistence/src/postgres-outbox-store.ts:90-104 | What a claim takes, and in which order, is determined by the rows. |
| `OutboxQueue.OutboxStore.MarkPublished` | packages/fleet-persistence/src/postgres-outbox-store.ts:122-142 | Succeeds exactly for the holder of an unpublished row, and then that row only is published at the given time, without a lock or an error. |
| `OutboxQueue.OutboxStore.RecordFailure` | packages/fleet-persistence/src/postgres-outbox-store.ts:145-169 | Succeeds exactly for the holder of an unpublished row, and then that row only waits, unlocked, for the time of its retry, with the error and the attempts it has had. |
| `EventWorker.SafeNext` | packages/fleet-persistence/src/postgres-outbox-store.ts:85-169 | Every interleaved step of any number of workers, including lost replies and crashes, keeps the queue invariant. |
| `EventWorker.OneHolder` | packages/fleet-persistence/src/postgres-outbox-store.ts:129-137 | In every reachable state no row is on the to-do lists of two workers. |
| `EventWorker.CountsAndDeliveries` | packages/fleet-persistence/src/postgres-outbox-store.ts:104-109 | In every reachable state a row's attempt count is the number of its claims, and a published row was delivered and is unlocked. |
| `EventWorker.HistoryMeans` | apps/event-worker/src/index.ts:165-172 | A row enters the delivered set only by a successful publish of the worker that holds it, and a claim is counted exactly once per claimed row. |
| `EventWorker.PublishedForever` | packages/fleet-persistence/src/postgres-outbox-store.ts:96-98 | Published is absorbing: the row never changes again under any further events. |
| `EventWorker.NotBeforeRetry` | packages/fleet-persistence/src/postgres-outbox-store.ts:145-169 | After a failure recorded by the holder, whatever the workers do, the row waits unchanged, with its retry time, its error and its attempt count, as long as nobody claims at or after that time; no claim before that time takes it. |
| `EventWorker.IdleHoldsNothing` | apps/event-worker/src/index.ts:132-212 | A worker that has never crashed holds no row between its passes: nothing it claimed is left locked. |
| `EventWorker.PublishedOnlyByHolder` | apps/event-worker/src/index.ts:165-173 | A row becomes published only when the worker that holds it marks it after a successful delivery. |
| `EventWorker.RunEventWorkerOnce` | apps/event-worker/src/index.ts:132-212 | A normally completed pass, with any statements of other workers in between, counts every claimed row once under what it came to, so claimed = published + failed + deferred + stale; no claimed row stays held; stale happens only where marking took effect and then reported an error; published rows carry the time of their own delivery, and a failed or deferred row that has not been claimed again is due at the time of its failure plus the delay, with the reason. |
| `EventWorker.HandleEvent` | apps/event-worker/src/index.ts:150-186 | One claimed row: delivered and marked at its time, or given back with its error until its retry, with the other rows of the worker and all published rows left alone. |
| `IdempotencyCache.InMemoryIdempotencyStore.Reserve` | apps/fleet-platform/src/server.ts:301-354 | Prunes, then replays or refuses by the stored signature, or stores a new protected record and evicts the oldest others. |
| `IdempotencyCache.InMemoryIdempotencyStore.EnforceMaxEntries` | apps/fleet-platform/src/server.ts:366-374 | Terminates with at most the capacity, keeps the protected key, and evicts only records older than every other kept one. |
| `IdempotencyCache.InMemoryIdempotencyStore.Rollback` | apps/fleet-platform/src/server.ts:343-352 | Removes the reservation's own record if it is still there and never another record for the same key; a second settlement does nothing. |
| `IdempotencyCache.EvictsEarliest` | apps/fleet-platform/src/server.ts:377-390 | With a clock that does not run backwards the evicted records are exactly the earliest inserted ones. |
| `IdempotencyCache.ReservedTwice` | apps/fleet-platform/src/server.ts:301-354 | Between two RESERVED answers for one key, or at the second, the first record expired, was evicted for another key at full capacity, or was rolled back by its own reservation. |
| `IdempotencyCache.ReservedWithinBounds` | apps/fleet-platform/src/server.ts:330-331 | After a reservation that creates a record the size is at most the capacity, nothing is expired, and the record is the only one for its key. |
| `TaskQueue.NoOverlap` | apps/fleet-platform/src/websocket.ts:239-248 | Under every schedule, two tasks of one robot are never in progress together. |
| `TaskQueue.EnqueueOrder` | apps/fleet-platform/src/websocket.ts:260-265 | Tasks of one robot begin in enqueue order, each only after everything queued before it for that robot has settled, through any clean-up of the map. |
| `TaskQueue.CloseWaitsForAll` | apps/fleet-platform/src/websocket.ts:178-191 | A completed shutdown has waited for every task ever queued. |
| `TaskQueue.ClosesExactly` | apps/fleet-platform/src/websocket.ts:178-191 | In every reachable state a shutdown can begin, and a begun one can finish if and only if every task ever queued has settled. |
| `TaskQueue.NothingQueuedWhileClosing` | apps/fleet-platform/src/websocket.ts:235-237 | Once the shutdown has begun no task is queued any more. |
| `TaskQueue.StartsExactly` | apps/fleet-platform/src/websocket.ts:239-258 | A robot's next task can begin exactly when the ones before it have settled, whether they succeeded, failed, or failed with an error handler that threw. |
| `TaskQueue.CatchMatters` | apps/fleet-platform/src/websocket.ts:239-242 | Concretely: after a failed task with a failed handler the next task begins behind the catch, and would be skipped if it were chained on the rejected tail directly. |
| `TaskQueue.EdgeWebSocketGateway.RemovePeer` | apps/fleet-platform/src/websocket.ts:201-227 | The reconnect task is queued exactly when the robot's last socket goes while the gateway is open. |
| `SqlText.SqlDollarQuote` | packages/fleet-persistence/src/postgres-migrations.ts:206-214 | Terminates, because a delimiter in the text is no longer than the text, with the first delimiter the text does not contain. |
| `SqlText.DollarQuoteRoundTrip` | packages/fleet-persistence/src/postgres-migrations.ts:206-214 | A reader following section 4.1.2.4 of the PostgreSQL manual gets the quoted value back if and only if the value does not end with the chosen delimiter without its last dollar sign. |
| `SqlText.QuotingCanFail` | packages/fleet-persistence/src/postgres-migrations.ts:206-214 | Concretely: the text of the first delimiter without its last dollar sign does not survive quoting. |
| `SqlText.StatementRoundTrip` | packages/fleet-persistence/src/postgres-migrations.ts:182-184 | Every text that ends with a semicolon survives quoting. |
| `SqlText.LiteralRoundTrip` | packages/fleet-persistence/src/postgres-migrations.ts:217-219 | Any text survives being written as a SQL string literal and read back. |
| `Migrations.FormatMigrationTransaction` | packages/fleet-persistence/src/postgres-migrations.ts:122-184 | Read as PostgreSQL reads it, every generated transaction takes the lock, refuses a row with this name and another checksum, and executes, unless a row with this name is there, exactly: the migration's own text without surrounding white space, ended by a semicolon; the insertion of its name and checksum; and the output of the marker of its name. Names and checksums are read back from their literals, the executed text from its dollar quote. |
| `Migrations.BuildMigrationPlan` | packages/fleet-persistence/src/postgres-migrations.ts:88-119 | Fails exactly when the database has an unknown, a repeated or a changed migration; otherwise plans every migration in order and skips exactly the recorded ones. |
| `MigrationRunner.AtMostOnce` | packages/fleet-persistence/src/postgres-migrations.ts:138-152 | Whatever the interleaving of the runners' transactions, no migration body runs twice, and what is recorded is what was recorded before or executed since. |
| `MigrationRunner.RunPostgresMigrations` | packages/fleet-persistence/src/postgres-migration-runner.ts:35-63 | With other runners at work in between, a run completes exactly when the database agreed with the files; then every migration is recorded, and its applied list is exactly the bodies it executed. |
| `MigrationRunner.ListsPartition` | packages/fleet-persistence/src/postgres-migration-runner.ts:45-62 | The applied and skipped lists partition the ordered migrations. |
| `MigrationRunner.RunAgain` | packages/fleet-persistence/src/postgres-migration-runner.ts:48-60 | A run that starts when everything is recorded applies nothing and skips everything. |

## Left out

- Eventual delivery and publication: outbox locks never expire and commands can be lost, so liveness is not promised.
- HTTP routing, sockets, frames, event streams, configuration and process spawning: plumbing.
- Request and wire validators: their results (non-empty ids, sequences >= 0, valid timestamps, finite numbers) are
  assumed through the types.
- Metrics, logging, error texts and their redaction.
- The operator console, the demo endpoints and the fault injectors. A repository reset is modelled; what the demo
  writes with it is not.
- The service wrapper that answers a cancellation of an unknown mission before calling the reducer; the reducer's own
  refusal is modelled.
- The simulator's actions (starting and stopping its heartbeat timer, disconnecting): in the composition an edge may
  send a heartbeat, a hello or a handshake at any time, which covers them. Its pose is stepped in `Pose`, in fixed
  point, and the pose a heartbeat carries is arbitrary.
- The POST /missions handler itself: it commits the reservation after a response and rolls it back on an exception;
  the cache it does this with is modelled.
- Redelivery of pending commands as a loop: in the composition any stored command may reach an edge at any time.
- Reading and ordering migration files, and parsing psql output; a runner starts from the ordered migrations.
- Platform pings and platform errors, which the simulator ignores or logs.
- The hash as such: SHA-256 is a parameter, and equal digests are never assumed to come from equal texts.
- That `localeCompare`, with integer-like keys first, is a strict order of the keys of an envelope, which are fixed
  ASCII names; on arbitrary keys it can call different texts equal. Typed records have no undefined members.
- White space between JSON tokens: the reader accepts what the serialiser writes.
- Which fields of a telemetry report or a handshake its two records repeat: here they hold the whole message.
- The JSON columns of the tables hold typed values; event payloads, audit details and failure reasons are typed too.
  Key order lost in storage is modelled where it matters, in `Outbox`.
- Size limits of the database: index rows, values, rows and the nesting of JSON. Where a row above says that the
  schema accepts something, it is within them.
- Ids that JavaScript objects inherit, such as `constructor` or `__proto__`: the model's maps have no inherited keys.
- A migration body that fails: its transaction is rolled back and its runner stops; bodies here succeed.
- Argument checks that throw before anything happens, such as blank worker ids and batch sizes below one.
- IdempotencyCache.InMemoryIdempotencyStore.Commit: the promise is a field of the reservation, and who awaits it is not modelled.
- Repository.PostgresRepository.Write: proved through Update, so the lock and the read it repeats are not stated again.
