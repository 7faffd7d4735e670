/** Runs of updates through the durable repository: what is stored, what is queued, and what is refused. */
module StoredRuns {
  import opened Texts
  import opened FleetState
  import opened Dispatch
  import opened Cancel
  import opened Telemetry
  import opened Reconnect
  import opened FleetRun
  import opened Sequences
  import opened Idempotency
  import opened Columns
  import opened ColumnSteps
  import opened Outbox
  import opened Database
  import opened StorableRuns
  import opened Repository

  /** One update: it needs a state that can be read, and an update the schema refuses is rolled back. */
  function StoredStep(s: DomainState, i: Input, config: DomainConfig): DomainState {
    var n := Step(s, i, config);
    if Readable(s) && Storable(n) then Written(n) else s
  }

  function StoredRun(s: DomainState, inputs: seq<Input>, config: DomainConfig): DomainState
    decreases |inputs|
  {
    if inputs == [] then s else StoredRun(StoredStep(s, inputs[0], config), inputs[1..], config)
  }

  /******* What is stored *******/

  lemma WrittenSequences(s: DomainState)
    requires SequencesInv(s)
    ensures SequencesInv(Written(s))
  {
    hide Utf8Ids;
    var w := Written(s);
    forall r | r in w.nextSequence ensures exists first :: GaplessFrom(w, r, first) {
      var first :| GaplessFrom(s, r, first);
      assert forall q :: q in Used(w, r) <==> q in Used(s, r);
      assert GaplessFrom(w, r, first);
    }
  }

  lemma WrittenIdempotency(s: DomainState)
    requires IdempotencyInv(s)
    ensures IdempotencyInv(Written(s))
  {
    hide Utf8Ids;
    var w := Written(s);
    forall k | k in w.idempotencyRecords ensures RecordSound(w, k) {
      assert RecordSound(s, k);
    }
    forall c | c in w.commands ensures CommandRecorded(w, c) {
      assert CommandRecorded(s, c);
    }
  }

  lemma WrittenStorable(s: DomainState)
    requires Storable(s) && LogsNumbered(s)
    ensures Storable(Written(s)) && LogsNumbered(Written(s))
  {
    hide RowsFit, Utf8Ids, WellPaired, MissionsRefer, CommandsStorable, RecordsRefer, EventIdsUnique, AuditIdsUnique;
    hide DomainEventId, AuditEventId;
    WrittenExact(s);
  }

  lemma WrittenInv(s: DomainState)
    requires StorableInv(s)
    ensures StorableInv(Written(s))
  {
    hide SequencesInv, IdempotencyInv, Storable, LogsNumbered, Written;
    WrittenSequences(s);
    WrittenIdempotency(s);
    WrittenStorable(s);
  }

  /** An update stores the step exactly when the state can be read and the schema takes the input. */
  lemma StoredStepExact(s: DomainState, i: Input, config: DomainConfig)
    requires StorableInv(s)
    ensures StorableInv(StoredStep(s, i, config))
    ensures StoredStep(s, i, config)
         == if Readable(s) && SchemaTakes(s, i, config) then Written(Step(s, i, config)) else s
  {
    hide Step, StorableInv, Storable, Readable, SchemaTakes, Written;
    if Readable(s) {
      StepStorable(s, i, config);
      if SchemaTakes(s, i, config) {
        WrittenInv(Step(s, i, config));
      }
    }
  }

  /** The id of an acknowledgement that is seen for the first time survives storing. */
  predicate KeepsId(s: DomainState, i: Input) {
    i.CommandAck? && i.ack.ackId !in s.processedAckIds ==> WellPaired(i.ack.ackId)
  }

  /** A condition on the input: the update is taken, stored as it is, and leaves a state that can be read. */
  predicate Taken(s: DomainState, i: Input, config: DomainConfig) {
    SchemaTakes(s, i, config) && KeepsId(s, i) && StaysReadable(s, i, config)
  }

  predicate AllTaken(s: DomainState, inputs: seq<Input>, config: DomainConfig)
    decreases |inputs|
  {
    inputs == []
    || (Taken(s, inputs[0], config) && AllTaken(Step(s, inputs[0], config), inputs[1..], config))
  }

  lemma NotedPaired(seen: seq<Id>, id: Option<Id>)
    requires forall i | 0 <= i < |seen| :: WellPaired(seen[i])
    ensures (forall i | 0 <= i < |Noted(seen, id)| :: WellPaired(Noted(seen, id)[i]))
            <==> (id.Some? ==> WellPaired(id.value))
  {
    hide WellPaired;
    if id.Some? {
      assert Noted(seen, id)[|seen|] == id.value;
    }
  }

  /** The ids a step notes. */
  lemma StepNotes(s: DomainState, i: Input, config: DomainConfig)
    ensures var ch, n := StepChanges(s, i, config), Step(s, i, config);
            && n.processedAckIds == Noted(s.processedAckIds, ch.ackId)
            && n.processedEventIds == Noted(s.processedEventIds, ch.eventId)
            && n.processedSessionIds == Noted(s.processedSessionIds, ch.sessionId)
            && (ch.ackId == if i.CommandAck? && i.ack.ackId !in s.processedAckIds then Some(i.ack.ackId) else None)
            && (ch.eventId.Some? ==> i.RobotTelemetry? && ch.eventId.value == i.telemetry.eventId
                                     && i.telemetry.eventId !in s.processedEventIds)
            && (ch.sessionId.Some? ==> i.ReconnectHandshake? && ch.sessionId.value == i.handshake.edgeSessionId
                                       && i.handshake.edgeSessionId !in s.processedSessionIds)
  {
    StepPuts(s, i, config);
    hide Step, Judge, JudgeCancel, DecideReconciliation, FreshConnection;
  }

  /** Writing an accepted step changes nothing but an acknowledgement id with an unpaired surrogate. */
  lemma WrittenStep(s: DomainState, i: Input, config: DomainConfig)
    requires Written(s) == s && InputFits(s, i, config)
    ensures Written(Step(s, i, config)) == Step(s, i, config) <==> KeepsId(s, i)
  {
    hide Step, StepChanges, Written, WellPaired, Noted, Utf8Ids;
    var ch, n := StepChanges(s, i, config), Step(s, i, config);
    StepNotes(s, i, config);
    WrittenExact(s);
    WrittenExact(n);
    NotedPaired(s.processedAckIds, ch.ackId);
    NotedPaired(s.processedEventIds, ch.eventId);
    NotedPaired(s.processedSessionIds, ch.sessionId);
  }

  /** The durable step is the plain step exactly when it is taken as it is, or changes nothing anyway. */
  lemma StoredAsIs(s: DomainState, i: Input, config: DomainConfig)
    requires StorableInv(s) && Written(s) == s
    ensures StoredStep(s, i, config) == Step(s, i, config)
            <==> (Readable(s) && SchemaTakes(s, i, config) && KeepsId(s, i)) || Step(s, i, config) == s
  {
    hide Step, StoredStep, StorableInv, Readable, Written, InputFits, StrandsMission, KeepsId;
    StoredStepExact(s, i, config);
    if SchemaTakes(s, i, config) {
      WrittenStep(s, i, config);
    }
  }

  /** Every stored state is sound, and while every input is taken the stored run is the plain run. */
  lemma {:induction false} StoredRunExact(s: DomainState, inputs: seq<Input>, config: DomainConfig)
    requires StorableInv(s)
    ensures StorableInv(StoredRun(s, inputs, config))
    ensures Readable(s) && Written(s) == s && AllTaken(s, inputs, config) ==>
              StoredRun(s, inputs, config) == Run(s, inputs, config) && Readable(Run(s, inputs, config))
    decreases |inputs|
  {
    hide Step, StoredStep, StorableInv, Storable, Readable, Written, InputFits, StrandsMission, KeepsId, StaysReadable;
    if inputs != [] {
      var i := inputs[0];
      StoredStepExact(s, i, config);
      if Readable(s) && Written(s) == s && Taken(s, i, config) {
        WrittenStep(s, i, config);
        SoundNumbers(s);
        StepReadable(s, i, config);
      }
      StoredRunExact(StoredStep(s, i, config), inputs[1..], config);
    }
  }

  lemma SoundNumbers(s: DomainState)
    requires StorableInv(s)
    ensures SequencesInv(s)
  {
  }

  lemma InitiallyStored()
    ensures StorableInv(INITIAL_STATE) && Readable(INITIAL_STATE) && Written(INITIAL_STATE) == INITIAL_STATE
  {
    assert Written(INITIAL_STATE) == INITIAL_STATE;
  }

  /** From the empty state: a run all of whose inputs are taken is stored completely. */
  lemma EveryRunIsStored(inputs: seq<Input>, config: DomainConfig)
    requires AllTaken(INITIAL_STATE, inputs, config)
    ensures StoredRun(INITIAL_STATE, inputs, config) == Run(INITIAL_STATE, inputs, config)
    ensures Storable(Run(INITIAL_STATE, inputs, config)) && Readable(Run(INITIAL_STATE, inputs, config))
  {
    InitiallyStored();
    hide Run, StoredRun, SequencesInv, IdempotencyInv, Storable, Readable, Written, AllTaken;
    StoredRunExact(INITIAL_STATE, inputs, config);
  }

  /******* What is not *******/

  lemma {:induction false} Frozen(s: DomainState, inputs: seq<Input>, config: DomainConfig)
    requires !Readable(s)
    ensures StoredRun(s, inputs, config) == s
    decreases |inputs|
  {
    hide Step, Readable, Storable, Written;
    if inputs != [] {
      Frozen(s, inputs[1..], config);
    }
  }

  /**
   An update whose numbers the columns take but the repository does not read back is the last one: no further
   update of any kind commits.
   */
  lemma LastUpdate(s: DomainState, i: Input, later: seq<Input>, config: DomainConfig)
    requires StorableInv(s) && Readable(s) && SchemaTakes(s, i, config) && !StaysReadable(s, i, config)
    ensures StoredRun(s, [i] + later, config) == Written(Step(s, i, config))
  {
    hide Step, StoredStep, StorableInv, SchemaTakes, StaysReadable;
    StoredStepExact(s, i, config);
    SoundNumbers(s);
    StepReadable(s, i, config);
    Frozen(Written(Step(s, i, config)), later, config);
    assert ([i] + later)[1..] == later;
  }

  /** Telemetry that claims to have seen command 2 to the power of 53; the validator takes any integer. */
  const UNSAFE_TELEMETRY := TelemetryReport(
    Ascii("t"), Ascii("r"), 0, 0, Pose2D([48], [48], [48]), 80.0, OK, ONLINE, None, None, 9007199254740992, Ascii("v"))

  lemma UnsafeTelemetryFreezes(later: seq<Input>, config: DomainConfig)
    ensures StoredRun(INITIAL_STATE, [RobotTelemetry(UNSAFE_TELEMETRY)] + later, config)
         == Written(Step(INITIAL_STATE, RobotTelemetry(UNSAFE_TELEMETRY), config))
  {
    hide Step, StoredRun, Written, StorableInv;
    InitiallyStored();
    PlainIsClean(Ascii("t"));
    PlainIsClean(Ascii("r"));
    PlainIsClean(Ascii("v"));
    hide Clean;
    assert BatteryFits(80.0);
    LastUpdate(INITIAL_STATE, RobotTelemetry(UNSAFE_TELEMETRY), later, config);
  }

  /** A new acknowledgement is remembered across a restart exactly when its id has no unpaired surrogate. */
  lemma RememberedExactly(s: DomainState, ack: Ack, config: DomainConfig)
    requires StorableInv(s) && Readable(s) && SchemaTakes(s, CommandAck(ack), config)
    requires ack.ackId !in s.processedAckIds
    ensures ack.ackId in StoredStep(s, CommandAck(ack), config).processedAckIds <==> WellPaired(ack.ackId)
  {
    hide Step, StoredStep, StorableInv, SchemaTakes, StepChanges, WellPaired;
    var n := Step(s, CommandAck(ack), config);
    StoredStepExact(s, CommandAck(ack), config);
    StepNotes(s, CommandAck(ack), config);
    var ids := n.processedAckIds;
    assert ids[|ids| - 1] == ack.ackId;
    var stored := Utf8Ids(ids);
    forall i | 0 <= i < |ids| ensures WellPaired(stored[i]) && (WellPaired(ids[i]) ==> stored[i] == ids[i]) {
      Utf8Exact(ids[i]);
    }
  }

  /******* What is queued *******/

  /** The outbox over a run of updates: each that commits queues its new records. */
  function QueuedBy(s: DomainState, box: seq<OutboxRecord>, inputs: seq<Input>, config: DomainConfig,
                    stored: Encoding, memory: Encoding, digest: Digest): seq<OutboxRecord>
    decreases |inputs|
  {
    if inputs == [] then box
    else
      var n := StoredStep(s, inputs[0], config);
      var next :=
        if Readable(s) && Storable(Step(s, inputs[0], config)) then
          Enqueued(box, NewRecords(s, n, stored, memory, digest))
        else box;
      QueuedBy(n, next, inputs[1..], config, stored, memory, digest)
  }

  lemma StoredStepExtends(s: DomainState, i: Input, config: DomainConfig)
    requires LogsNumbered(s)
    ensures Extends(s, StoredStep(s, i, config))
  {
    StepAppends(s, i, config);
    hide Step, Storable, Readable, DomainEventId, AuditEventId;
  }

  lemma {:induction false} RunQueues(s: DomainState, box: seq<OutboxRecord>, inputs: seq<Input>, config: DomainConfig,
                                     stored: Encoding, memory: Encoding, digest: Digest, d: nat, a: nat)
    requires SameUpToKeyOrder(stored, memory) && IsDigest(digest)
    requires LogsNumbered(s) && HoldsSince(box, s, d, a, memory, digest)
    ensures HoldsSince(QueuedBy(s, box, inputs, config, stored, memory, digest), StoredRun(s, inputs, config), d, a,
                       memory, digest)
    decreases |inputs|
  {
    hide Step, Storable, Readable, LogsNumbered, HoldsSince, NewRecords, SameUpToKeyOrder, IsDigest, Written;
    if inputs != [] {
      var n := StoredStep(s, inputs[0], config);
      StoredStepExtends(s, inputs[0], config);
      assert LogsNumbered(n);
      hide Extends;
      if Readable(s) && Storable(Step(s, inputs[0], config)) {
        SelectsAppended(s, n, stored, memory, digest);
        NewRecordsQueue(box, s, n, d, a, memory, digest);
        NewRecordsHold(box, s, n, d, a, memory, digest);
        RunQueues(n, Enqueued(box, NewRecords(s, n, stored, memory, digest)), inputs[1..], config, stored, memory,
                  digest, d, a);
      } else {
        RunQueues(s, box, inputs[1..], config, stored, memory, digest, d, a);
      }
    }
  }

  /**
   From an empty outbox, any run of updates queues exactly the domain and audit events that the stored state has
   gained: each once, in log order, as the row of that event; older events and those of updates that were rolled
   back are not queued at all.
   */
  lemma OutboxComplete(s: DomainState, inputs: seq<Input>, config: DomainConfig, stored: Encoding, memory: Encoding,
                       digest: Digest)
    requires LogsNumbered(s) && SameUpToKeyOrder(stored, memory) && IsDigest(digest)
    ensures var box := QueuedBy(s, [], inputs, config, stored, memory, digest);
            var n := StoredRun(s, inputs, config);
            && s.domainEvents <= n.domainEvents && s.auditEvents <= n.auditEvents
            && DomainIn(box) == n.domainEvents[|s.domainEvents|..]
            && AuditIn(box) == n.auditEvents[|s.auditEvents|..]
            && RowsOf(box, memory, digest)
  {
    assert HoldsSince([], s, |s.domainEvents|, |s.auditEvents|, memory, digest);
    hide StoredRun, QueuedBy, RowsOf, DomainIn, AuditIn, LogsNumbered, SameUpToKeyOrder, IsDigest;
    RunQueues(s, [], inputs, config, stored, memory, digest, |s.domainEvents|, |s.auditEvents|);
    RunExtends(s, inputs, config);
  }

  lemma {:induction false} RunExtends(s: DomainState, inputs: seq<Input>, config: DomainConfig)
    requires LogsNumbered(s)
    ensures s.domainEvents <= StoredRun(s, inputs, config).domainEvents
    ensures s.auditEvents <= StoredRun(s, inputs, config).auditEvents
    decreases |inputs|
  {
    hide Step, StoredStep, LogsNumbered;
    if inputs != [] {
      StoredStepExtends(s, inputs[0], config);
      RunExtends(StoredStep(s, inputs[0], config), inputs[1..], config);
    }
  }

  /******* The repository itself *******/

  /**
   The service's updates, one after the other, on a repository whose outbox is empty: it ends in the stored run,
   and its outbox holds exactly the events that this run has added to the logs.
   */
  method RunUpdates(repository: PostgresRepository, inputs: seq<Input>, config: DomainConfig, stored: Encoding,
                    memory: Encoding, digest: Digest)
    requires repository.Valid() && StorableInv(repository.state) && repository.tables.outbox == []
    requires SameUpToKeyOrder(stored, memory) && IsDigest(digest)
    modifies repository
    ensures repository.Valid() && StorableInv(repository.state)
    ensures repository.state == StoredRun(old(repository.state), inputs, config)
    ensures var s, box := old(repository.state), repository.tables.outbox;
            && |s.domainEvents| <= |repository.state.domainEvents|
            && |s.auditEvents| <= |repository.state.auditEvents|
            && DomainIn(box) == repository.state.domainEvents[|s.domainEvents|..]
            && AuditIn(box) == repository.state.auditEvents[|s.auditEvents|..]
            && RowsOf(box, memory, digest)
  {
    hide Step, Storable, Readable, Written, StorableInv, Constraints, Mirrors, KeyedById, SameUpToKeyOrder, IsDigest;
    hide RowsOf, DomainIn, AuditIn, LogsNumbered, Enqueued, NewRecords;
    ghost var s := repository.state;
    Sound(s);
    OutboxComplete(s, inputs, config, stored, memory, digest);
    for i := 0 to |inputs|
      invariant repository.Valid() && StorableInv(repository.state)
      invariant StoredRun(repository.state, inputs[i..], config) == StoredRun(s, inputs, config)
      invariant QueuedBy(repository.state, repository.tables.outbox, inputs[i..], config, stored, memory, digest)
             == QueuedBy(s, [], inputs, config, stored, memory, digest)
    {
      Sound(repository.state);
      StepKeyed(repository.state, inputs[i], config);
      StoredStepExact(repository.state, inputs[i], config);
      assert inputs[i..][1..] == inputs[i + 1..];
      var status := repository.Update(state => Step(state, inputs[i], config), stored, memory, digest);
    }
  }

  lemma Sound(s: DomainState)
    requires StorableInv(s)
    ensures LogsNumbered(s) && KeyedById(s)
  {
  }
}
