/** Idempotency keys over whole runs: one command per key, and exact replays. */
module Idempotency {
  import opened Texts
  import opened KeySort
  import opened Json
  import opened JsonCanonical
  import opened FleetState
  import opened Dispatch
  import opened Cancel
  import opened FleetRun

  /******* Signatures decide whether two requests ask for the same thing *******/

  ghost predicate SameDispatch(a: DispatchInput, b: DispatchInput) {
    a.missionId == b.missionId && a.robotId == b.robotId && a.commandType == b.commandType
    && Equivalent(a.payload, b.payload)
  }

  ghost predicate SameCancel(a: CancelInput, b: CancelInput) {
    a.missionId == b.missionId && a.reason == b.reason
  }

  lemma FieldNamesDiffer()
    ensures MISSION_ID != ROBOT_ID && MISSION_ID != TYPE && MISSION_ID != PAYLOAD
    ensures ROBOT_ID != TYPE && ROBOT_ID != PAYLOAD && TYPE != PAYLOAD
  {
    assert ROBOT_ID[0] == 114 && PAYLOAD[0] == 112;
  }

  lemma TypeTextInjective(a: CommandType, b: CommandType)
    ensures TypeText(a) == TypeText(b) <==> a == b
  {
    assert TypeText(CancelMission)[0] == 67;
    assert TypeText(ResumeMission)[0] == 82;
    assert TypeText(EmergencyStop)[0] == 69;
  }

  lemma StringsWellFormed(t: Text)
    ensures WellFormed(JString(t))
  {
  }

  lemma SignedRequestWellFormed(d: DispatchInput)
    ensures WellFormed(SignedRequest(d))
  {
    hide TypeText;
    FieldNamesDiffer();
    StringsWellFormed(d.missionId);
    StringsWellFormed(d.robotId);
    StringsWellFormed(TypeText(d.commandType));
  }

  lemma SignedCancelWellFormed(c: CancelInput)
    ensures WellFormed(SignedCancel(c))
  {
    hide TypeText;
    FieldNamesDiffer();
    StringsWellFormed(c.missionId);
    StringsWellFormed(TypeText(CancelMission));
  }

  /** Objects with the same keys in the same order are equivalent exactly when their values are. */
  lemma SameKeys(x: seq<Member<Json>>, y: seq<Member<Json>>)
    requires |x| == |y| && DistinctKeys(x)
    requires forall i | 0 <= i < |x| :: x[i].key == y[i].key
    ensures Equivalent(JObject(x), JObject(y)) <==> forall i | 0 <= i < |x| :: Equivalent(x[i].value, y[i].value)
  {
    forall k ensures k in KeySet(x) <==> k in KeySet(y) {
      if k in KeySet(x) {
        var m :| m in x && m.key == k;
        var i :| 0 <= i < |x| && x[i] == m;
        assert y[i] in y;
      }
      if k in KeySet(y) {
        var m :| m in y && m.key == k;
        var i :| 0 <= i < |y| && y[i] == m;
        assert x[i] in x;
      }
    }
    forall i, j | 0 <= i < |x| && 0 <= j < |y| && x[i].key == y[j].key ensures i == j {
      assert x[j].key == y[j].key;
    }
  }

  lemma FourFields(x: seq<Member<Json>>, y: seq<Member<Json>>)
    requires |x| == |y| == 4 && DistinctKeys(x)
    requires forall i | 0 <= i < 4 :: x[i].key == y[i].key
    ensures Equivalent(JObject(x), JObject(y))
            <==> && Equivalent(x[0].value, y[0].value) && Equivalent(x[1].value, y[1].value)
                 && Equivalent(x[2].value, y[2].value) && Equivalent(x[3].value, y[3].value)
  {
    SameKeys(x, y);
    hide Equivalent;
  }

  lemma StringsEquivalent(a: Text, b: Text)
    ensures Equivalent(JString(a), JString(b)) <==> a == b
  {
  }

  lemma SignedFields(d: DispatchInput)
    ensures SignedRequest(d).JObject?
    ensures var ms := SignedRequest(d).members;
            && |ms| == 4 && DistinctKeys(ms)
            && ms[0].key == MISSION_ID && ms[1].key == ROBOT_ID && ms[2].key == TYPE && ms[3].key == PAYLOAD
            && ms[0].value == JString(d.missionId) && ms[1].value == JString(d.robotId)
            && ms[2].value == JString(TypeText(d.commandType)) && ms[3].value == d.payload
  {
    hide TypeText;
    FieldNamesDiffer();
  }

  lemma SignedRequestExact(a: DispatchInput, b: DispatchInput)
    ensures Equivalent(SignedRequest(a), SignedRequest(b)) <==> SameDispatch(a, b)
  {
    hide TypeText, Equivalent, SignedRequest, DistinctKeys;
    SignedFields(a);
    SignedFields(b);
    FourFields(SignedRequest(a).members, SignedRequest(b).members);
    StringsEquivalent(a.missionId, b.missionId);
    StringsEquivalent(a.robotId, b.robotId);
    StringsEquivalent(TypeText(a.commandType), TypeText(b.commandType));
    TypeTextInjective(a.commandType, b.commandType);
  }

  /** A dispatch signature is exact up to the order of payload keys. */
  lemma DispatchSignatureExact(a: DispatchInput, b: DispatchInput)
    ensures DispatchSignature(a) == DispatchSignature(b) <==> SameDispatch(a, b)
  {
    hide Print, StrictOrder, SignedRequest, SameDispatch, Equivalent, WellFormed;
    SignedRequestWellFormed(a);
    SignedRequestWellFormed(b);
    CodeUnitOrder();
    PrintExact(SignedRequest(a), SignedRequest(b), Less);
    SignedRequestExact(a, b);
  }

  lemma CancelSignatureExact(a: CancelInput, b: CancelInput)
    ensures CancelSignature(a) == CancelSignature(b) <==> SameCancel(a, b)
  {
    hide Print, StrictOrder, TypeText;
    SignedCancelWellFormed(a);
    SignedCancelWellFormed(b);
    CodeUnitOrder();
    PrintExact(SignedCancel(a), SignedCancel(b), Less);
    var x, y := SignedCancel(a).members, SignedCancel(b).members;
    SameKeys(x, y);
    assert Equivalent(x[0].value, y[0].value) <==> a.missionId == b.missionId;
    assert Equivalent(x[1].value, y[1].value);
    var p, q := ReasonPayload(a).members, ReasonPayload(b).members;
    SameKeys(p, q);
    assert Equivalent(p[0].value, q[0].value) <==> a.reason == b.reason;
    assert Equivalent(x[2].value, y[2].value) <==> a.reason == b.reason;
  }

  /** A key used for a dispatch can never be replayed by a cancellation, nor the other way round. */
  lemma SignaturesDisjoint(d: DispatchInput, c: CancelInput)
    ensures DispatchSignature(d) != CancelSignature(c)
  {
    hide Print, StrictOrder, TypeText;
    SignedRequestWellFormed(d);
    SignedCancelWellFormed(c);
    CodeUnitOrder();
    PrintExact(SignedRequest(d), SignedCancel(c), Less);
    var x, y := SignedRequest(d).members, SignedCancel(c).members;
    FieldNamesDiffer();
    assert x[1] in x && ROBOT_ID in KeySet(x);
    assert ROBOT_ID !in KeySet(y);
  }

  /******* The invariant *******/

  ghost predicate RecordSound(s: DomainState, k: Id)
    requires k in s.idempotencyRecords
  {
    var r := s.idempotencyRecords[k];
    Settles(s, r) && s.commands[r.commandId].idempotencyKey == k && s.commands[r.commandId].missionId == r.missionId
  }

  ghost predicate CommandRecorded(s: DomainState, c: Id)
    requires c in s.commands
  {
    var k := s.commands[c].idempotencyKey;
    k in s.idempotencyRecords && s.idempotencyRecords[k].commandId == c
  }

  ghost predicate IdempotencyInv(s: DomainState) {
    && KeyedById(s)
    && (forall k | k in s.idempotencyRecords :: RecordSound(s, k))
    && (forall c | c in s.commands :: CommandRecorded(s, c))
  }

  /** Stored commands and records are never replaced. */
  ghost predicate Keeps(s: DomainState, n: DomainState) {
    && s.missions.Keys <= n.missions.Keys
    && (forall c | c in s.commands :: c in n.commands && n.commands[c] == s.commands[c])
    && (forall k | k in s.idempotencyRecords ::
          k in n.idempotencyRecords && n.idempotencyRecords[k] == s.idempotencyRecords[k])
  }

  /** A new command under a fresh id and an unused key, together with its record. */
  ghost predicate StoredPair(s: DomainState, n: DomainState, c: Command, r: IdempotencyRecord) {
    && s.missions.Keys <= n.missions.Keys && c.missionId in n.missions
    && c.commandId !in s.commands && c.idempotencyKey !in s.idempotencyRecords
    && r.idempotencyKey == c.idempotencyKey && r.commandId == c.commandId && r.missionId == c.missionId
    && n.commands == s.commands[c.commandId := c]
    && n.idempotencyRecords == s.idempotencyRecords[c.idempotencyKey := r]
  }

  lemma RecordStaysSound(s: DomainState, n: DomainState, c: Command, r: IdempotencyRecord, k: Id)
    requires StoredPair(s, n, c, r) && k in n.idempotencyRecords
    requires k in s.idempotencyRecords ==> RecordSound(s, k)
    ensures RecordSound(n, k)
  {
  }

  lemma CommandStaysRecorded(s: DomainState, n: DomainState, c: Command, r: IdempotencyRecord, x: Id)
    requires StoredPair(s, n, c, r) && x in n.commands
    requires x in s.commands ==> CommandRecorded(s, x)
    ensures CommandRecorded(n, x)
  {
  }

  lemma StoringKeeps(s: DomainState, n: DomainState, c: Command, r: IdempotencyRecord)
    requires StoredPair(s, n, c, r)
    ensures Keeps(s, n)
  {
  }

  lemma StoringKeepsInv(s: DomainState, n: DomainState, c: Command, r: IdempotencyRecord)
    requires IdempotencyInv(s) && KeyedById(n) && StoredPair(s, n, c, r)
    ensures IdempotencyInv(n) && Keeps(s, n)
  {
    hide KeyedById, RecordSound, CommandRecorded, StoredPair, Keeps;
    StoringKeeps(s, n, c, r);
    forall k | k in n.idempotencyRecords ensures RecordSound(n, k) {
      RecordStaysSound(s, n, c, r, k);
    }
    forall x | x in n.commands ensures CommandRecorded(n, x) {
      CommandStaysRecorded(s, n, c, r, x);
    }
  }

  lemma SnapshotsKeepInv(s: DomainState, n: DomainState)
    requires IdempotencyInv(s) && KeyedById(n)
    requires s.missions.Keys <= n.missions.Keys
    requires n.commands == s.commands && n.idempotencyRecords == s.idempotencyRecords
    ensures IdempotencyInv(n) && Keeps(s, n)
  {
    hide KeyedById;
    forall k | k in n.idempotencyRecords ensures RecordSound(n, k) {
      assert RecordSound(s, k);
    }
    forall x | x in n.commands ensures CommandRecorded(n, x) {
      assert CommandRecorded(s, x);
    }
  }

  lemma RecordsSettle(s: DomainState)
    requires IdempotencyInv(s)
    ensures forall k | k in s.idempotencyRecords :: Settles(s, s.idempotencyRecords[k])
  {
    forall k | k in s.idempotencyRecords ensures Settles(s, s.idempotencyRecords[k]) {
      assert RecordSound(s, k);
    }
  }

  lemma StepIdempotency(s: DomainState, i: Input, config: DomainConfig)
    requires IdempotencyInv(s)
    ensures IdempotencyInv(Step(s, i, config))
    ensures Keeps(s, Step(s, i, config))
  {
    StepPuts(s, i, config);
    StepIssues(s, i, config);
    StepKeyed(s, i, config);
    RecordsSettle(s);
    hide Step, StepChanges, KeyedById, Keeps;
    var ch, n := StepChanges(s, i, config), Step(s, i, config);
    if ch.command.Some? {
      var c := ch.command.value;
      StoringKeepsInv(s, n, c, ch.record.value);
    } else {
      SnapshotsKeepInv(s, n);
    }
  }

  lemma {:induction false} RunIdempotency(s: DomainState, inputs: seq<Input>, config: DomainConfig)
    requires IdempotencyInv(s)
    ensures IdempotencyInv(Run(s, inputs, config))
    ensures Keeps(s, Run(s, inputs, config))
    decreases |inputs|
  {
    hide Step, IdempotencyInv;
    if inputs != [] {
      StepIdempotency(s, inputs[0], config);
      RunIdempotency(Step(s, inputs[0], config), inputs[1..], config);
    }
  }

  lemma InitialIdempotency()
    ensures IdempotencyInv(INITIAL_STATE)
  {
  }

  /** In every reachable state a key belongs to at most one command, and its record names that command. */
  lemma OneCommandPerKey(inputs: seq<Input>, config: DomainConfig, a: Id, b: Id)
    requires a in Run(INITIAL_STATE, inputs, config).commands && b in Run(INITIAL_STATE, inputs, config).commands
    requires Run(INITIAL_STATE, inputs, config).commands[a].idempotencyKey
          == Run(INITIAL_STATE, inputs, config).commands[b].idempotencyKey
    ensures a == b
    ensures var n := Run(INITIAL_STATE, inputs, config);
            var k := n.commands[a].idempotencyKey;
            && k in n.idempotencyRecords
            && n.idempotencyRecords[k].commandId == a
            && n.idempotencyRecords[k].missionId == n.commands[a].missionId
            && n.commands[a].missionId in n.missions
  {
    InitialIdempotency();
    RunIdempotency(INITIAL_STATE, inputs, config);
    hide Run;
    var n := Run(INITIAL_STATE, inputs, config);
    assert CommandRecorded(n, a) && CommandRecorded(n, b);
    assert RecordSound(n, n.commands[a].idempotencyKey);
  }

  /******* Repeated requests *******/

  /** Only the logs differ. */
  ghost predicate OnlyLogsDiffer(s: DomainState, n: DomainState) {
    n == s.(domainEvents := n.domainEvents, auditEvents := n.auditEvents)
  }

  /** What a later dispatch gets for a key that some command of the state already carries. */
  lemma DispatchOfKnownKey(s: DomainState, d: DispatchInput, config: DomainConfig)
    requires IdempotencyInv(s) && d.idempotencyKey in s.idempotencyRecords
    ensures var r := s.idempotencyRecords[d.idempotencyKey];
            var t := DispatchMissionCommand(s, d, config);
            && Settles(s, r)
            && (r.payloadSignature == DispatchSignature(d) ==>
                  t == Unchanged(s, DispatchReplay(s.commands[r.commandId], s.missions[r.missionId])))
            && (r.payloadSignature != DispatchSignature(d) ==>
                  OnlyLogsDiffer(s, t.state)
                  && t.result == DispatchRejected(IDEMPOTENCY_KEY_REUSE_CONFLICT, None, None))
  {
    RecordsSettle(s);
    hide DispatchSignature, DispatchRefusal, AcceptDispatch, RejectedMission, CreateDomainEvent, CreateAuditEvent;
    hide IdempotencyInv, RecordSound, RejectionEvent, RejectionAudit, Settles;
    var r := s.idempotencyRecords[d.idempotencyKey];
    assert Judge(s, d, config) == if r.payloadSignature == DispatchSignature(d) then Replay(r) else Conflict(r);
    hide Judge;
  }

  lemma CancelOfKnownKey(s: DomainState, c: CancelInput, config: DomainConfig)
    requires IdempotencyInv(s) && c.idempotencyKey in s.idempotencyRecords && c.missionId in s.missions
    ensures var r := s.idempotencyRecords[c.idempotencyKey];
            var t := RequestMissionCancellation(s, c, config);
            && Settles(s, r)
            && (r.payloadSignature == CancelSignature(c) ==>
                  t == Unchanged(s, CancelReplay(s.commands[r.commandId], s.missions[r.missionId])))
            && (r.payloadSignature != CancelSignature(c) ==>
                  OnlyLogsDiffer(s, t.state)
                  && t.result == CancelRejected(IDEMPOTENCY_KEY_REUSE_CONFLICT, Some(s.missions[c.missionId])))
  {
    RecordsSettle(s);
    hide CancelSignature, CancelRefusal, AcceptCancellation, CreateDomainEvent, CreateAuditEvent, IdempotencyInv;
    hide RecordSound, Settles;
    var r := s.idempotencyRecords[c.idempotencyKey];
    assert JudgeCancel(s, c, config)
        == if r.payloadSignature == CancelSignature(c) then CancelReplays(r)
           else CancelConflict(s.missions[c.missionId]);
    hide JudgeCancel;
  }

  /** Accepting a dispatch stores its signature and its command. */
  lemma AcceptedDispatchStored(s: DomainState, d: DispatchInput, config: DomainConfig)
    requires DispatchMissionCommand(s, d, config).result.DispatchAccepted?
    ensures var t := DispatchMissionCommand(s, d, config);
            && t.result.command.commandId == d.commandId && t.result.command.missionId == d.missionId
            && d.commandId in t.state.commands && t.state.commands[d.commandId] == t.result.command
            && d.idempotencyKey in t.state.idempotencyRecords
            && t.state.idempotencyRecords[d.idempotencyKey]
               == IdempotencyRecord(d.idempotencyKey, DispatchSignature(d), d.commandId, d.missionId)
  {
    hide DispatchSignature, DispatchRefusal, RejectedMission, CreateDomainEvent, CreateAuditEvent, TargetPose;
  }

  lemma AcceptedCancelStored(s: DomainState, c: CancelInput, config: DomainConfig)
    requires KeyedById(s)
    requires RequestMissionCancellation(s, c, config).result.CancelAccepted?
    ensures var t := RequestMissionCancellation(s, c, config);
            && c.missionId in s.missions
            && t.result.command.commandId == c.commandId && t.result.command.missionId == c.missionId
            && c.commandId in t.state.commands && t.state.commands[c.commandId] == t.result.command
            && c.idempotencyKey in t.state.idempotencyRecords
            && t.state.idempotencyRecords[c.idempotencyKey]
               == IdempotencyRecord(c.idempotencyKey, CancelSignature(c), c.commandId, c.missionId)
  {
    hide CancelSignature, CancelRefusal, CreateDomainEvent, CreateAuditEvent;
  }

  /**
   An accepted dispatch, whatever happens afterwards: the same key replays the same command and leaves the
   state alone exactly when the request is the same up to payload key order; otherwise it is refused as a
   conflict and only the logs grow.
   */
  lemma AcceptedDispatchReplays(s: DomainState, d: DispatchInput, after: seq<Input>, again: DispatchInput,
                                config: DomainConfig)
    requires IdempotencyInv(s)
    requires DispatchMissionCommand(s, d, config).result.DispatchAccepted?
    requires again.idempotencyKey == d.idempotencyKey
    ensures var command := DispatchMissionCommand(s, d, config).result.command;
            var n := Run(Step(s, DispatchRequest(d), config), after, config);
            var t := DispatchMissionCommand(n, again, config);
            && command.missionId in n.missions
            && (SameDispatch(d, again) <==> t.result.DispatchReplay?)
            && (SameDispatch(d, again) ==>
                  t == Unchanged(n, DispatchReplay(command, n.missions[command.missionId])))
            && (!SameDispatch(d, again) ==>
                  t.result == DispatchRejected(IDEMPOTENCY_KEY_REUSE_CONFLICT, None, None)
                  && OnlyLogsDiffer(n, t.state))
  {
    var s1 := Step(s, DispatchRequest(d), config);
    var n := Run(s1, after, config);
    AcceptedDispatchStored(s, d, config);
    StepIdempotency(s, DispatchRequest(d), config);
    assert s1 == DispatchMissionCommand(s, d, config).state;
    hide DispatchMissionCommand, Step, Run;
    RunIdempotency(s1, after, config);
    DispatchOfKnownKey(n, again, config);
    DispatchSignatureExact(d, again);
    hide DispatchSignature, SameDispatch, IdempotencyInv;
  }

  /** A request under the key of a stored cancellation: the same one replays it, any other only adds to the logs. */
  lemma CancelAgain(n: DomainState, c: CancelInput, again: CancelInput, config: DomainConfig)
    requires IdempotencyInv(n) && again.idempotencyKey in n.idempotencyRecords
    requires n.idempotencyRecords[again.idempotencyKey].payloadSignature == CancelSignature(c)
    requires c.missionId in n.missions
    ensures var r := n.idempotencyRecords[again.idempotencyKey];
            var t := RequestMissionCancellation(n, again, config);
            && Settles(n, r)
            && (SameCancel(c, again) <==> t.result.CancelReplay?)
            && (SameCancel(c, again) ==>
                  t == Unchanged(n, CancelReplay(n.commands[r.commandId], n.missions[r.missionId])))
            && (!SameCancel(c, again) ==> t.result.CancelRejected? && OnlyLogsDiffer(n, t.state))
  {
    hide RequestMissionCancellation, CancelSignature, IdempotencyInv, Settles;
    RecordsSettle(n);
    if again.missionId in n.missions {
      CancelOfKnownKey(n, again, config);
      CancelSignatureExact(c, again);
    } else {
      UnknownMissionRefused(n, again, config);
    }
  }

  /** The same for an accepted cancellation, whatever happens afterwards. */
  lemma AcceptedCancelReplays(s: DomainState, c: CancelInput, after: seq<Input>, again: CancelInput,
                              config: DomainConfig)
    requires IdempotencyInv(s)
    requires RequestMissionCancellation(s, c, config).result.CancelAccepted?
    requires again.idempotencyKey == c.idempotencyKey
    ensures var command := RequestMissionCancellation(s, c, config).result.command;
            var n := Run(Step(s, CancelRequest(c), config), after, config);
            var t := RequestMissionCancellation(n, again, config);
            && command.missionId in n.missions
            && (SameCancel(c, again) <==> t.result.CancelReplay?)
            && (SameCancel(c, again) ==>
                  t == Unchanged(n, CancelReplay(command, n.missions[command.missionId])))
            && (!SameCancel(c, again) ==> t.result.CancelRejected? && OnlyLogsDiffer(n, t.state))
  {
    assert KeyedById(s);
    hide RequestMissionCancellation, Step, Run, CancelSignature, IdempotencyInv, SameCancel, OnlyLogsDiffer;
    var s1 := Step(s, CancelRequest(c), config);
    AcceptedCancelStored(s, c, config);
    StepIdempotency(s, CancelRequest(c), config);
    CancelStep(s, c, config);
    RunIdempotency(s1, after, config);
    CancelAgain(Run(s1, after, config), c, again, config);
  }

  lemma CancelStep(s: DomainState, c: CancelInput, config: DomainConfig)
    ensures Step(s, CancelRequest(c), config) == RequestMissionCancellation(s, c, config).state
  {
    hide RequestMissionCancellation;
  }

  lemma UnknownMissionRefused(s: DomainState, c: CancelInput, config: DomainConfig)
    requires c.missionId !in s.missions
    ensures var t := RequestMissionCancellation(s, c, config);
            t.result == CancelRejected(UNKNOWN_MISSION, None) && OnlyLogsDiffer(s, t.state)
  {
    hide CreateDomainEvent, CreateAuditEvent;
  }

  /** A cancellation that reuses a dispatch's key is always a conflict, and the other way round. */
  lemma KindsNeverReplayEachOther(s: DomainState, d: DispatchInput, c: CancelInput, config: DomainConfig)
    requires IdempotencyInv(s) && d.idempotencyKey == c.idempotencyKey
    requires d.idempotencyKey in s.idempotencyRecords
    ensures s.idempotencyRecords[d.idempotencyKey].payloadSignature == DispatchSignature(d) ==>
              !RequestMissionCancellation(s, c, config).result.CancelReplay?
    ensures s.idempotencyRecords[d.idempotencyKey].payloadSignature == CancelSignature(c) ==>
              !DispatchMissionCommand(s, d, config).result.DispatchReplay?
  {
    SignaturesDisjoint(d, c);
    DispatchOfKnownKey(s, d, config);
    if c.missionId in s.missions {
      CancelOfKnownKey(s, c, config);
      hide RequestMissionCancellation, DispatchMissionCommand, DispatchSignature, CancelSignature;
    } else {
      UnknownMissionRefused(s, c, config);
      hide RequestMissionCancellation, DispatchMissionCommand, DispatchSignature, CancelSignature;
    }
  }
}
