/** `runEventWorkerOnce`, and the queue under any number of workers. */
module EventWorker {
  import opened Texts
  import opened OutboxQueue

  /******* Several workers at once *******/

  /** Where a worker is with the first row of its to-do list. */
  datatype Phase =
    | Publishing
    | Marking
    | Releasing(lost: bool) // `lost`: marking took effect but reported an error

  datatype Worker = Idle | InPass(todo: seq<Id>, phase: Phase)

  /** The rows, the workers, and two history variables: what was ever delivered, and every claim made. */
  datatype System = System(rows: Rows, workers: map<Id, Worker>, delivered: set<Id>, claims: multiset<Id>)

  const START := System(map[], map[], {}, multiset{})

  datatype Event =
    | Enqueue(r: Id, createdAt: Time, availableAt: Time)
    | BeginPass(worker: Id, batchSize: nat, now: Time, busy: set<Id>, chosen: seq<Id>)
    | PublishSucceeds(worker: Id)
    | PublishFails(worker: Id)
    | MarkReturns(worker: Id, at: Time)
    | MarkThrows(worker: Id, at: Time, tookEffect: bool)
    | FailureRecorded(worker: Id, retryAt: Time, error: Text)
    | Finish(worker: Id)
    | Crash(worker: Id)

  function WorkerOf(s: System, w: Id): Worker {
    if w in s.workers then s.workers[w] else Idle
  }

  predicate InPhase(s: System, w: Id, p: Phase) {
    var x := WorkerOf(s, w);
    x.InPass? && x.todo != [] && (x.phase == p || (p.Releasing? && x.phase.Releasing?))
  }

  function Head(s: System, w: Id): Id
    requires WorkerOf(s, w).InPass? && WorkerOf(s, w).todo != []
  {
    WorkerOf(s, w).todo[0]
  }

  function Moved(s: System, w: Id, p: Phase): System
    requires WorkerOf(s, w).InPass?
  {
    s.(workers := s.workers[w := WorkerOf(s, w).(phase := p)])
  }

  /** The row of the list is dealt with. */
  function Advanced(s: System, w: Id): System
    requires WorkerOf(s, w).InPass? && WorkerOf(s, w).todo != []
  {
    s.(workers := s.workers[w := InPass(WorkerOf(s, w).todo[1..], Publishing)])
  }

  /** A disabled event changes nothing. */
  function Next(s: System, e: Event): System {
    match e
    case Enqueue(r, createdAt, availableAt) => s.(rows := Act(s.rows, Insert(r, createdAt, availableAt)))
    case BeginPass(w, n, now, busy, chosen) =>
      if WorkerOf(s, w).Idle? && Oldest(s.rows, Candidates(s.rows, now, busy), n, chosen) then
        System(Claimed(s.rows, chosen, w, now), s.workers[w := InPass(chosen, Publishing)], s.delivered,
               s.claims + multiset(chosen))
      else s
    case PublishSucceeds(w) =>
      if InPhase(s, w, Publishing) then Moved(s, w, Marking).(delivered := s.delivered + {Head(s, w)}) else s
    case PublishFails(w) => if InPhase(s, w, Publishing) then Moved(s, w, Releasing(false)) else s
    case MarkReturns(w, at) =>
      if InPhase(s, w, Marking) then Advanced(s, w).(rows := Act(s.rows, Mark(w, Head(s, w), at))) else s
    case MarkThrows(w, at, tookEffect) =>
      if InPhase(s, w, Marking) then
        Moved(s, w, Releasing(tookEffect)).(rows := if tookEffect then Act(s.rows, Mark(w, Head(s, w), at)) else s.rows)
      else s
    case FailureRecorded(w, retryAt, error) =>
      if InPhase(s, w, Releasing(false)) then
        Advanced(s, w).(rows := Act(s.rows, Release(w, Head(s, w), retryAt, error)))
      else s
    case Finish(w) =>
      if WorkerOf(s, w).InPass? && WorkerOf(s, w).todo == [] then s.(workers := s.workers[w := Idle]) else s
    case Crash(w) => s.(workers := s.workers[w := Idle])
  }

  function Execute(s: System, events: seq<Event>): System
    decreases |events|
  {
    if events == [] then s else Execute(Next(s, events[0]), events[1..])
  }

  /******* The invariant *******/

  predicate RowSound(s: System, r: Id)
    requires r in s.rows
  {
    var x := s.rows[r];
    && (x.lockedAt.Some? <==> x.lockedBy.Some?)
    && (x.publishedAt.Some? ==> x.lockedBy.None? && r in s.delivered)
    && x.attemptCount == s.claims[r]
  }

  predicate Lost(x: Worker) {
    x.InPass? && x.phase == Releasing(true)
  }

  /** Every row on a worker's list is held by it, except a first row that it has already marked. */
  predicate WorkerSound(s: System, w: Id)
    requires w in s.workers
  {
    var x := s.workers[w];
    x.InPass? ==>
      && (!x.phase.Publishing? ==> x.todo != [])
      && (forall j, k | 0 <= j < k < |x.todo| :: x.todo[j] != x.todo[k])
      && (forall k | 0 <= k < |x.todo| && !(k == 0 && Lost(x)) :: Holds(s.rows, w, x.todo[k]))
      && (Lost(x) ==> x.todo[0] in s.rows && s.rows[x.todo[0]].publishedAt.Some?)
      && (x.phase.Marking? ==> x.todo[0] in s.delivered)
  }

  predicate LostApart(s: System) {
    forall v, w | v in s.workers && w in s.workers && v != w && Lost(s.workers[v]) && Lost(s.workers[w]) ::
      s.workers[v].todo != [] && s.workers[w].todo != [] ==> s.workers[v].todo[0] != s.workers[w].todo[0]
  }

  predicate Safe(s: System) {
    && (forall r | r in s.rows :: RowSound(s, r))
    && (forall r | r in s.claims :: r in s.rows)
    && (forall w | w in s.workers :: WorkerSound(s, w))
    && LostApart(s)
  }

  lemma RowsStaySound(s: System, e: Event)
    requires Safe(s)
    ensures forall r | r in Next(s, e).rows :: RowSound(Next(s, e), r)
    ensures forall r | r in Next(s, e).claims :: r in Next(s, e).rows
  {
    hide LostApart, WorkerSound;
    if e.BeginPass? {
      ClaimedStaySound(s, e);
    } else if e.MarkReturns? || e.MarkThrows? {
      hide Oldest, Claimed;
      assert InPhase(s, e.worker, Marking) ==> Head(s, e.worker) in s.delivered by {
        MarkedWasDelivered(s, e.worker);
      }
    } else {
      hide Oldest, Claimed;
    }
  }

  lemma MarkedWasDelivered(s: System, w: Id)
    requires Safe(s)
    ensures InPhase(s, w, Marking) ==> Head(s, w) in s.delivered
  {
    assert w in s.workers ==> WorkerSound(s, w);
  }

  lemma ClaimedStaySound(s: System, e: Event)
    requires Safe(s) && e.BeginPass?
    ensures forall r | r in Next(s, e).rows :: RowSound(Next(s, e), r)
    ensures forall r | r in Next(s, e).claims :: r in Next(s, e).rows
  {
    hide LostApart, WorkerSound;
    var candidates := Candidates(s.rows, e.now, e.busy);
    if WorkerOf(s, e.worker).Idle? && Oldest(s.rows, candidates, e.batchSize, e.chosen) {
      ChosenOnce(s.rows, candidates, e.batchSize, e.chosen);
    }
    hide Before;
  }

  /** A claim takes each of its rows once. */
  lemma ChosenOnce(rows: Rows, candidates: set<Id>, n: nat, chosen: seq<Id>)
    requires candidates <= rows.Keys && Oldest(rows, candidates, n, chosen)
    ensures forall j, k | 0 <= j < k < |chosen| :: chosen[j] != chosen[k]
    ensures forall r :: multiset(chosen)[r] == if r in chosen then 1 else 0
  {
    forall j, k | 0 <= j < k < |chosen| ensures chosen[j] != chosen[k] {
      BeforeTotal(rows, chosen[j], chosen[k]);
    }
    OnceEach(chosen);
  }

  lemma {:induction false} OnceEach(ids: seq<Id>)
    requires forall j, k | 0 <= j < k < |ids| :: ids[j] != ids[k]
    ensures forall r :: multiset(ids)[r] == if r in ids then 1 else 0
  {
    if ids != [] {
      OnceEach(ids[1..]);
      assert ids == [ids[0]] + ids[1..];
    }
  }

  /** What the event did to the rows, as one statement of `e.worker`, when it did anything. */
  function ActionOf(s: System, e: Event): Option<RowAction> {
    match e
    case Enqueue(r, createdAt, availableAt) => Some(Insert(r, createdAt, availableAt))
    case BeginPass(w, n, now, busy, chosen) =>
      if WorkerOf(s, w).Idle? && Oldest(s.rows, Candidates(s.rows, now, busy), n, chosen) then
        Some(Claim(w, chosen, now))
      else None
    case MarkReturns(w, at) => if InPhase(s, w, Marking) then Some(Mark(w, Head(s, w), at)) else None
    case MarkThrows(w, at, tookEffect) =>
      if InPhase(s, w, Marking) && tookEffect then Some(Mark(w, Head(s, w), at)) else None
    case FailureRecorded(w, retryAt, error) =>
      if InPhase(s, w, Releasing(false)) then Some(Release(w, Head(s, w), retryAt, error)) else None
    case _ => None
  }

  lemma NextActs(s: System, e: Event)
    ensures Next(s, e).rows == if ActionOf(s, e).Some? then Act(s.rows, ActionOf(s, e).value) else s.rows
  {
    hide Claimed, Published, Released, Before;
  }

  predicate Concerns(e: Event, w: Id) {
    !e.Enqueue? && e.worker == w
  }

  lemma OthersUntouched(s: System, e: Event, w: Id)
    requires w in Next(s, e).workers && !Concerns(e, w)
    ensures w in s.workers && Next(s, e).workers[w] == s.workers[w]
    ensures s.delivered <= Next(s, e).delivered
    ensures ActionOf(s, e).Some? ==> ByAnother(ActionOf(s, e).value, w)
  {
    hide Act, Oldest, Claimed;
  }

  /** What one worker does leaves the others' lists and rows alone. */
  lemma OthersStaySound(s: System, e: Event, w: Id)
    requires Safe(s) && w in Next(s, e).workers && !Concerns(e, w)
    ensures w in s.workers && Next(s, e).workers[w] == s.workers[w]
    ensures WorkerSound(Next(s, e), w)
  {
    NextActs(s, e);
    OthersUntouched(s, e, w);
    assert WorkerSound(s, w);
    var x, n := s.workers[w], Next(s, e);
    hide Next, Safe, Act, ActionOf, Concerns, ByAnother;
    if x.InPass? && ActionOf(s, e).Some? {
      var a := ActionOf(s, e).value;
      forall k | 0 <= k < |x.todo| && x.todo[k] in s.rows ensures x.todo[k] in Act(s.rows, a)
        && (Holds(s.rows, w, x.todo[k]) || s.rows[x.todo[k]].publishedAt.Some? ==>
              Act(s.rows, a)[x.todo[k]] == s.rows[x.todo[k]])
      {
        ActKeeps(s.rows, a, x.todo[k]);
      }
    }
  }

  lemma OwnStaysSound(s: System, e: Event, w: Id)
    requires Safe(s) && w in Next(s, e).workers && Concerns(e, w)
    ensures WorkerSound(Next(s, e), w)
  {
    assert w in s.workers ==> WorkerSound(s, w);
    if e.BeginPass? {
      ClaimingStaysSound(s, e);
    } else if e.MarkReturns? || e.MarkThrows? || e.FailureRecorded? {
      ClosingStaysSound(s, e);
    } else {
      hide LostApart, Safe, RowSound, Act;
    }
    hide Next, Safe, WorkerSound;
  }

  lemma ClaimingStaysSound(s: System, e: Event)
    requires e.BeginPass? && e.worker in Next(s, e).workers
    requires e.worker in s.workers ==> WorkerSound(s, e.worker)
    ensures WorkerSound(Next(s, e), e.worker)
  {
    var candidates := Candidates(s.rows, e.now, e.busy);
    if WorkerOf(s, e.worker).Idle? && Oldest(s.rows, candidates, e.batchSize, e.chosen) {
      ChosenOnce(s.rows, candidates, e.batchSize, e.chosen);
      assert forall k | 0 <= k < |e.chosen| :: Holds(Next(s, e).rows, e.worker, e.chosen[k]);
      hide Oldest;
    }
  }

  /** Closing the first row of the list leaves the rest of the list held. */
  lemma ClosingStaysSound(s: System, e: Event)
    requires e.MarkReturns? || e.MarkThrows? || e.FailureRecorded?
    requires e.worker in Next(s, e).workers
    requires e.worker in s.workers ==> WorkerSound(s, e.worker)
    ensures WorkerSound(Next(s, e), e.worker)
  {
    var w, x, n := e.worker, WorkerOf(s, e.worker), Next(s, e);
    NextActs(s, e);
    if x.InPass? && x.todo != [] {
      forall k | 1 <= k < |x.todo| ensures x.todo[k] != x.todo[0] && Holds(s.rows, w, x.todo[k]) {
      }
      assert forall k | 0 <= k < |x.todo[1..]| :: x.todo[1..][k] == x.todo[k + 1];
      if ActionOf(s, e).Some? {
        assert forall k | 1 <= k < |x.todo| :: Act(s.rows, ActionOf(s, e).value)[x.todo[k]] == s.rows[x.todo[k]];
      }
    }
    hide Act, WorkerOf;
  }

  /** A row marked by one worker cannot be the one another worker has marked: it was still unpublished. */
  lemma LostStayApart(s: System, e: Event)
    requires Safe(s)
    ensures LostApart(Next(s, e))
  {
    var n := Next(s, e);
    forall v, w | v in n.workers && w in n.workers && v != w && Lost(n.workers[v]) && Lost(n.workers[w])
                  && n.workers[v].todo != [] && n.workers[w].todo != []
      ensures n.workers[v].todo[0] != n.workers[w].todo[0]
    {
      var p, q := if Concerns(e, v) then w else v, if Concerns(e, v) then v else w;
      LostKept(s, e, p);
      LostBefore(s, e, q);
      hide Next, Concerns;
    }
  }

  /** A worker the event does not concern is as it was. */
  lemma LostKept(s: System, e: Event, p: Id)
    requires Safe(s) && p in Next(s, e).workers && !Concerns(e, p)
    ensures p in s.workers && Next(s, e).workers[p] == s.workers[p]
    ensures Lost(s.workers[p]) ==> s.workers[p].todo != [] && IsPublished(s, s.workers[p].todo[0])
  {
    OthersStaySound(s, e, p);
    assert WorkerSound(s, p);
    hide Next;
  }

  predicate IsPublished(s: System, r: Id) {
    r in s.rows && s.rows[r].publishedAt.Some?
  }

  /** A worker that is lost after the event either was before, on the same row, or held that row unpublished. */
  lemma LostBefore(s: System, e: Event, q: Id)
    requires Safe(s) && q in Next(s, e).workers && Lost(Next(s, e).workers[q]) && Next(s, e).workers[q].todo != []
    ensures var r := Next(s, e).workers[q].todo[0];
            || (q in s.workers && Lost(s.workers[q]) && s.workers[q].todo != [] && s.workers[q].todo[0] == r)
            || !IsPublished(s, r)
  {
    assert q in s.workers ==> WorkerSound(s, q);
    hide Safe;
  }

  lemma SafeNext(s: System, e: Event)
    requires Safe(s)
    ensures Safe(Next(s, e))
  {
    var n := Next(s, e);
    RowsStaySound(s, e);
    LostStayApart(s, e);
    forall w | w in n.workers ensures WorkerSound(n, w) {
      if Concerns(e, w) {
        OwnStaysSound(s, e, w);
      } else {
        OthersStaySound(s, e, w);
      }
    }
    hide Next, RowSound, WorkerSound, LostApart;
  }

  lemma {:induction false} SafeExecution(s: System, events: seq<Event>)
    requires Safe(s)
    ensures Safe(Execute(s, events))
    decreases |events|
  {
    hide Next, Safe;
    if events != [] {
      SafeNext(s, events[0]);
      SafeExecution(Next(s, events[0]), events[1..]);
    }
  }

  /******* What the queue guarantees *******/

  /** In every reachable state no row is on the to-do lists of two workers. */
  lemma OneHolder(events: seq<Event>, v: Id, w: Id, r: Id)
    requires var s := Execute(START, events);
             && WorkerOf(s, v).InPass? && WorkerOf(s, w).InPass?
             && r in WorkerOf(s, v).todo && r in WorkerOf(s, w).todo
    ensures v == w
  {
    SafeExecution(START, events);
    var s := Execute(START, events);
    assert WorkerSound(s, v) && WorkerSound(s, w);
    hide Execute, RowSound;
    var x, y := s.workers[v], s.workers[w];
    var j :| 0 <= j < |x.todo| && x.todo[j] == r;
    var k :| 0 <= k < |y.todo| && y.todo[k] == r;
  }

  /** Every row counts its claims, and a published row was delivered by a worker that held it. */
  lemma CountsAndDeliveries(events: seq<Event>, r: Id)
    requires r in Execute(START, events).rows
    ensures var s := Execute(START, events);
            && s.rows[r].attemptCount == s.claims[r]
            && (s.rows[r].publishedAt.Some? ==> r in s.delivered && s.rows[r].lockedBy.None?)
  {
    SafeExecution(START, events);
    hide Execute;
    assert RowSound(Execute(START, events), r);
  }

  /** The history variables only record what happens: a delivery by the holder of the row, and a claim. */
  lemma HistoryMeans(s: System, e: Event, r: Id)
    requires Safe(s)
    ensures r in Next(s, e).delivered && r !in s.delivered ==>
              && e.PublishSucceeds? && WorkerOf(s, e.worker).InPass? && r in WorkerOf(s, e.worker).todo
              && Holds(s.rows, e.worker, r)
    ensures Next(s, e).claims[r] == s.claims[r]
            + if e.BeginPass? && ActionOf(s, e).Some? && r in e.chosen then 1 else 0
  {
    if e.BeginPass? && ActionOf(s, e).Some? {
      ChosenOnce(s.rows, Candidates(s.rows, e.now, e.busy), e.batchSize, e.chosen);
      hide Oldest;
    } else if e.PublishSucceeds? && InPhase(s, e.worker, Publishing) {
      assert WorkerSound(s, e.worker);
    }
    hide Safe, Act, Claimed;
  }

  /** The worker holds no row but those on its list. */
  predicate HoldsListed(s: System, w: Id) {
    forall r | r in s.rows && Holds(s.rows, w, r) :: WorkerOf(s, w).InPass? && r in WorkerOf(s, w).todo
  }

  lemma ListedNext(s: System, e: Event, w: Id)
    requires Safe(s) && HoldsListed(s, w) && e != Crash(w)
    ensures HoldsListed(Next(s, e), w)
  {
    var n := Next(s, e);
    NextActs(s, e);
    forall r | r in n.rows && Holds(n.rows, w, r) ensures WorkerOf(n, w).InPass? && r in WorkerOf(n, w).todo {
      if Concerns(e, w) {
        OwnListed(s, e, w, r);
      } else {
        OthersListed(s, e, w, r);
      }
    }
  }

  lemma OthersListed(s: System, e: Event, w: Id, r: Id)
    requires Safe(s) && HoldsListed(s, w) && !Concerns(e, w) && Holds(Next(s, e).rows, w, r)
    ensures WorkerOf(Next(s, e), w).InPass? && r in WorkerOf(Next(s, e), w).todo
  {
    NextActs(s, e);
    assert r in s.rows by {
      hide Claimed, Published, Released, Oldest;
    }
    if ActionOf(s, e).Some? {
      ActKeeps(s.rows, ActionOf(s, e).value, r);
    }
    assert w in Next(s, e).workers ==> w in s.workers && Next(s, e).workers[w] == s.workers[w];
    assert w in s.workers ==> w in Next(s, e).workers;
    hide Act, Oldest, Claimed;
  }

  lemma OwnListed(s: System, e: Event, w: Id, r: Id)
    requires Safe(s) && HoldsListed(s, w) && Concerns(e, w) && e != Crash(w) && Holds(Next(s, e).rows, w, r)
    ensures WorkerOf(Next(s, e), w).InPass? && r in WorkerOf(Next(s, e), w).todo
  {
    if e.BeginPass? {
      hide Safe, Oldest;
    } else if e.MarkReturns? || e.MarkThrows? || e.FailureRecorded? {
      ClosedListed(s, e, w, r);
    } else {
      hide Safe, Act, Holds;
    }
  }

  /** Closing the first row of the list is what ends its hold. */
  lemma ClosedListed(s: System, e: Event, w: Id, r: Id)
    requires HoldsListed(s, w) && Concerns(e, w) && Holds(Next(s, e).rows, w, r)
    requires e.MarkReturns? || e.MarkThrows? || e.FailureRecorded?
    ensures WorkerOf(Next(s, e), w).InPass? && r in WorkerOf(Next(s, e), w).todo
  {
    var x := WorkerOf(s, w);
    if x.InPass? && x.todo != [] {
      assert x.todo == [x.todo[0]] + x.todo[1..];
    }
  }

  lemma {:induction false} ListedExecution(s: System, events: seq<Event>, w: Id)
    requires Safe(s) && HoldsListed(s, w) && Crash(w) !in events
    ensures HoldsListed(Execute(s, events), w)
    decreases |events|
  {
    hide Next, Safe, HoldsListed;
    if events != [] {
      assert events == [events[0]] + events[1..];
      ListedNext(s, events[0], w);
      SafeNext(s, events[0]);
      ListedExecution(Next(s, events[0]), events[1..], w);
    }
  }

  /** A worker that has never crashed holds no row between its passes: nothing it claimed is left locked. */
  lemma IdleHoldsNothing(events: seq<Event>, w: Id, r: Id)
    requires Crash(w) !in events && WorkerOf(Execute(START, events), w).Idle?
    ensures !Holds(Execute(START, events).rows, w, r)
  {
    ListedExecution(START, events, w);
    hide Execute;
  }

  /** Publication is absorbing: the row never changes again, and no later claim takes it. */
  lemma {:induction false} PublishedForever(s: System, events: seq<Event>, r: Id)
    requires r in s.rows && s.rows[r].publishedAt.Some?
    ensures r in Execute(s, events).rows && Execute(s, events).rows[r] == s.rows[r]
    decreases |events|
  {
    hide Next;
    if events != [] {
      NextActs(s, events[0]);
      if ActionOf(s, events[0]).Some? {
        ActKeeps(s.rows, ActionOf(s, events[0]).value, r);
      }
      hide Act, ActionOf;
      PublishedForever(Next(s, events[0]), events[1..], r);
    }
  }

  /** A row becomes published only when the worker that holds it marks it, after a successful delivery. */
  lemma PublishedOnlyByHolder(s: System, e: Event, r: Id)
    requires Safe(s) && r in s.rows && s.rows[r].publishedAt.None?
    requires Next(s, e).rows[r].publishedAt.Some?
    ensures e.MarkReturns? || (e.MarkThrows? && e.tookEffect)
    ensures InPhase(s, e.worker, Marking) && Head(s, e.worker) == r
    ensures Holds(s.rows, e.worker, r) && r in s.delivered
  {
    NextActs(s, e);
    hide Next;
    assert e.MarkReturns? || e.MarkThrows?;
    assert WorkerSound(s, e.worker);
  }

  /** Finishing a pass, or crashing, leaves the worker idle and every row as it is. */
  lemma PassEnds(s: System, w: Id)
    ensures WorkerOf(Next(s, Finish(w)), w).Idle? <==> WorkerOf(s, w).Idle? || WorkerOf(s, w).todo == []
    ensures WorkerOf(Next(s, Crash(w)), w).Idle?
    ensures Next(s, Finish(w)).rows == Next(s, Crash(w)).rows == s.rows
  {
  }

  /******* Failures are retried, and not too early *******/

  /** The pass of `w` is about to record the failure of row `r`, which it still holds. */
  predicate FailsAt(s: System, w: Id, r: Id) {
    InPhase(s, w, Releasing(false)) && Head(s, w) == r && Holds(s.rows, w, r)
  }

  /** Nobody claims anything from this time on. */
  predicate ClaimsBefore(events: seq<Event>, retryAt: Time) {
    forall e | e in events && e.BeginPass? :: e.now < retryAt
  }

  lemma WaitingNext(s: System, e: Event, r: Id, retryAt: Time, error: Text)
    requires WaitsFor(s.rows, r, retryAt, error) && (e.BeginPass? ==> e.now < retryAt)
    ensures r in Next(s, e).rows && Next(s, e).rows[r] == s.rows[r]
    ensures e.BeginPass? && ActionOf(s, e).Some? ==> r !in e.chosen
  {
    NextActs(s, e);
    if ActionOf(s, e).Some? {
      ActKeeps(s.rows, ActionOf(s, e).value, r);
    }
    hide Next, Act, Before;
  }

  lemma {:induction false} WaitingExecution(s: System, events: seq<Event>, r: Id, retryAt: Time, error: Text)
    requires WaitsFor(s.rows, r, retryAt, error) && ClaimsBefore(events, retryAt)
    ensures r in Execute(s, events).rows && Execute(s, events).rows[r] == s.rows[r]
    decreases |events|
  {
    hide Next, ActionOf;
    if events != [] {
      WaitingNext(s, events[0], r, retryAt, error);
      assert forall e | e in events[1..] :: e in events;
      WaitingExecution(Next(s, events[0]), events[1..], r, retryAt, error);
    }
  }

  /**
   A failure recorded by the holder of the row reschedules it: it waits, unlocked, with its error and without another
   attempt, through whatever happens before the time it was given, and the first claim that takes it comes no earlier.
   */
  lemma NotBeforeRetry(before: seq<Event>, w: Id, r: Id, retryAt: Time, error: Text, after: seq<Event>, claim: Event)
    requires FailsAt(Execute(START, before), w, r) && ClaimsBefore(after, retryAt) && claim.BeginPass?
    ensures var s := Execute(START, before);
            var n := Execute(Next(s, FailureRecorded(w, retryAt, error)), after);
            && WaitsFor(n.rows, r, retryAt, error) && n.rows[r].attemptCount == s.rows[r].attemptCount
            && n.rows[r].createdAt == s.rows[r].createdAt
            && (ActionOf(n, claim).Some? && r in claim.chosen ==> retryAt <= claim.now)
  {
    hide Execute, Oldest;
    var s := Execute(START, before);
    var failed := Next(s, FailureRecorded(w, retryAt, error));
    assert WaitsFor(failed.rows, r, retryAt, error);
    hide Next;
    WaitingExecution(failed, after, r, retryAt, error);
    var n := Execute(failed, after);
    if claim.now < retryAt {
      WaitingNext(n, claim, r, retryAt, error);
    }
  }

  /******* One pass *******/

  datatype MarkReply = MarkReturned | MarkThrew(tookEffect: bool)

  /** What happens to the k-th claimed row: the delivery succeeds or fails, and marking may report an error. */
  datatype Outcome = Delivered(reply: MarkReply) | NotDelivered

  datatype Summary = Summary(claimed: nat, published: nat, failed: nat, deferred: nat, stale: nat)

  const NOT_CONFIGURED: Text := Ascii("outbox publication is not configured")

  datatype Handled = WasPublished | WasFailed | WasDeferred | WasStale

  /** What handling a held row comes to. */
  function Verdict(configured: bool, o: Outcome): Handled {
    if !configured then WasDeferred
    else if o == Delivered(MarkReturned) then WasPublished
    else if o == Delivered(MarkThrew(true)) then WasStale
    else WasFailed
  }

  /** The other rows of this worker, and all published rows, are left alone. */
  predicate Undisturbed(before: Rows, after: Rows, worker: Id, event: Id) {
    forall r | r in before ::
      && r in after
      && (r != event && (before[r].publishedAt.Some? || Holds(before, worker, r)) ==> after[r] == before[r])
      && (!Holds(before, worker, r) ==> !Holds(after, worker, r))
      && before[r].attemptCount <= after[r].attemptCount
      && (r != event && before[r].publishedAt.None? && before[r].lockedAt.None? && before[r].lockedBy.None? ==>
            after[r] == before[r] || before[r].attemptCount < after[r].attemptCount)
  }

  lemma UndisturbedTwice(a: Rows, b: Rows, c: Rows, worker: Id, event: Id)
    requires Undisturbed(a, b, worker, event) && Undisturbed(b, c, worker, event)
    ensures Undisturbed(a, c, worker, event)
  {
  }

  /** Closing a held row leaves the others alone. */
  lemma Closed(before: Rows, after: Rows, worker: Id, event: Id)
    requires OnlyTouches(before, after, event) && (event in before ==> after[event].lockedAt == None)
    ensures Undisturbed(before, after, worker, event)
  {
  }

  lemma OnlyOthers(before: seq<RowAction>, between: seq<RowAction>, worker: Id)
    requires forall a | a in before + between :: ByAnother(a, worker)
    ensures (forall a | a in before :: ByAnother(a, worker)) && forall a | a in between :: ByAnother(a, worker)
  {
    assert forall a | a in before :: a in before + between;
    assert forall a | a in between :: a in before + between;
  }

  lemma NothingDisturbed(rows: Rows, worker: Id, event: Id)
    ensures Undisturbed(rows, rows, worker, event)
  {
  }

  /** One claimed row: deliver and mark it, or give it back. Others act `before` that, and before a release. */
  method HandleEvent(store: OutboxStore, worker: Id, event: Id, configured: bool, o: Outcome, error: Text, at: Time,
                     retryAt: Time, before: seq<RowAction>, between: seq<RowAction>) returns (handled: Handled)
    requires Holds(store.rows, worker, event)
    requires forall a | a in before + between :: ByAnother(a, worker)
    modifies store
    ensures handled == Verdict(configured, o)
    ensures Undisturbed(old(store.rows), store.rows, worker, event)
    ensures Settled(store.rows, worker, event, Verdict(configured, o), at, retryAt,
                    if configured then error else NOT_CONFIGURED, Attempts(old(store.rows), event))
  {
    hide ActAll, Published, Released, Undisturbed, OnlyTouches, ByAnother;
    OnlyOthers(before, between, worker);
    ghost var start := store.rows;
    KeptByOthers(start, before, worker, event);
    store.OthersAct(before);
    ghost var ready := store.rows;
    if !configured {
      var released := store.RecordFailure(event, worker, retryAt, NOT_CONFIGURED);
      Closed(ready, store.rows, worker, event);
      UndisturbedTwice(start, ready, store.rows, worker, event);
      return if released then WasDeferred else WasStale;
    }
    if o == Delivered(MarkReturned) {
      var done := store.MarkPublished(event, worker, at);
      Closed(ready, store.rows, worker, event);
      UndisturbedTwice(start, ready, store.rows, worker, event);
      return if done then WasPublished else WasStale;
    }
    NothingDisturbed(ready, worker, event);
    if o == Delivered(MarkThrew(true)) {
      var _ := store.MarkPublished(event, worker, at);
      Closed(ready, store.rows, worker, event);
    }
    ghost var marked := store.rows;
    KeptByOthers(marked, between, worker, event);
    store.OthersAct(between);
    UndisturbedTwice(ready, marked, store.rows, worker, event);
    UndisturbedTwice(start, ready, store.rows, worker, event);
    ghost var waited := store.rows;
    NothingDisturbed(waited, worker, event);
    var released := store.RecordFailure(event, worker, retryAt, error);
    if released {
      Closed(waited, store.rows, worker, event);
    }
    UndisturbedTwice(start, waited, store.rows, worker, event);
    return if released then WasFailed else WasStale;
  }

  /**
   The row has been dealt with: nobody of this name holds it. It is published, at this time, if marking took effect;
   otherwise, unless it has been claimed again since, it waits for its next attempt.
   */
  predicate Settled(rows: Rows, worker: Id, r: Id, handled: Handled, at: Time, retryAt: Time, error: Text,
                    attempts: nat)
  {
    && r in rows && !Holds(rows, worker, r) && attempts <= rows[r].attemptCount
    && match handled
       case WasPublished => DoneAt(rows, r, at)
       case WasStale => DoneAt(rows, r, at)
       case WasFailed => rows[r].attemptCount == attempts ==> WaitsFor(rows, r, retryAt, error)
       case WasDeferred => rows[r].attemptCount == attempts ==> WaitsFor(rows, r, retryAt, error)
  }

  /** How many of the first `k` rows come to `v`. */
  function Count(v: Handled, configured: bool, outcomes: nat -> Outcome, k: nat): nat {
    if k == 0 then 0
    else Count(v, configured, outcomes, k - 1) + if Verdict(configured, outcomes(k - 1)) == v then 1 else 0
  }

  /** Every row comes to exactly one thing. */
  lemma {:induction false} CountsPartition(configured: bool, outcomes: nat -> Outcome, k: nat)
    ensures k == Count(WasPublished, configured, outcomes, k) + Count(WasFailed, configured, outcomes, k)
                 + Count(WasDeferred, configured, outcomes, k) + Count(WasStale, configured, outcomes, k)
    ensures configured ==> Count(WasDeferred, configured, outcomes, k) == 0
    ensures !configured ==> Count(WasDeferred, configured, outcomes, k) == k
  {
    if k != 0 {
      CountsPartition(configured, outcomes, k - 1);
    }
  }

  /** How often the row has been claimed so far. */
  function Attempts(rows: Rows, r: Id): nat {
    if r in rows then rows[r].attemptCount else 0
  }

  lemma ClaimedAreHeld(rows: Rows, worker: Id, now: Time, busy: set<Id>, n: nat, claimed: seq<Id>)
    requires Oldest(rows, Candidates(rows, now, busy), n, claimed)
    ensures forall j, k | 0 <= j < k < |claimed| :: claimed[j] != claimed[k]
    ensures forall k | 0 <= k < |claimed| ::
              Holds(Claimed(rows, claimed, worker, now), worker, claimed[k])
              && Attempts(Claimed(rows, claimed, worker, now), claimed[k]) == Attempts(rows, claimed[k]) + 1
  {
    ChosenOnce(rows, Candidates(rows, now, busy), n, claimed);
  }

  /** Handling one row of the list keeps the rest of it held and what is settled settled. */
  /** What a pass needs to know to deal with its claimed rows. */
  datatype Pass = Pass(
    worker: Id, configured: bool, outcomes: nat -> Outcome, errors: nat -> Text, clock: nat -> Time, retryDelayMs: int)

  /** The k-th claimed row has been dealt with; `attempts` counts its claims up to the one of this pass. */
  predicate SettledAt(rows: Rows, r: Id, p: Pass, k: nat, attempts: nat) {
    Settled(rows, p.worker, r, Verdict(p.configured, p.outcomes(k)), p.clock(k), p.clock(k) + p.retryDelayMs,
            if p.configured then p.errors(k) else NOT_CONFIGURED, attempts)
  }

  lemma StaysSettled(before: Rows, after: Rows, r: Id, event: Id, p: Pass, k: nat, attempts: nat)
    requires Undisturbed(before, after, p.worker, event) && r != event && SettledAt(before, r, p, k, attempts)
    ensures SettledAt(after, r, p, k, attempts)
  {
  }

  /** Handling one row of the list keeps the rest of it held and what is settled settled. */
  lemma ListAfter(start: Rows, before: Rows, after: Rows, claimed: seq<Id>, i: nat, p: Pass)
    requires i < |claimed| && Undisturbed(before, after, p.worker, claimed[i])
    requires forall j, k | 0 <= j < k < |claimed| :: claimed[j] != claimed[k]
    requires forall k | i <= k < |claimed| ::
               Holds(before, p.worker, claimed[k]) && Attempts(before, claimed[k]) == Attempts(start, claimed[k])
    requires forall k | 0 <= k < i :: SettledAt(before, claimed[k], p, k, Attempts(start, claimed[k]))
    ensures forall k | i < k < |claimed| ::
              Holds(after, p.worker, claimed[k]) && Attempts(after, claimed[k]) == Attempts(start, claimed[k])
    ensures forall k | 0 <= k < i :: SettledAt(after, claimed[k], p, k, Attempts(start, claimed[k]))
  {
    hide SettledAt;
    forall k | 0 <= k < i ensures SettledAt(after, claimed[k], p, k, Attempts(start, claimed[k])) {
      StaysSettled(before, after, claimed[k], claimed[i], p, k, Attempts(start, claimed[k]));
    }
  }

  /**
   A pass that completes normally, with any statements of others between its own. Every claimed row is counted
   once, under what it came to, and none stays held. Rows are stale only where marking took effect and then
   reported an error; rows that were given back wait for the time of their failure plus the delay.
   */
  method RunEventWorkerOnce(store: OutboxStore, batchSize: nat, now: Time, busy: set<Id>, p: Pass,
                            others: nat -> seq<RowAction>)
    returns (summary: Summary, claimed: seq<Id>)
    requires forall k: nat, a | a in others(k) :: ByAnother(a, p.worker)
    modifies store
    ensures Oldest(old(store.rows), Candidates(old(store.rows), now, busy), batchSize, claimed)
    ensures summary == Summary(|claimed|, Count(WasPublished, p.configured, p.outcomes, |claimed|),
                               Count(WasFailed, p.configured, p.outcomes, |claimed|),
                               Count(WasDeferred, p.configured, p.outcomes, |claimed|),
                               Count(WasStale, p.configured, p.outcomes, |claimed|))
    ensures summary.claimed == summary.published + summary.failed + summary.deferred + summary.stale
    ensures forall k | 0 <= k < |claimed| ::
              SettledAt(store.rows, claimed[k], p, k, Attempts(old(store.rows), claimed[k]) + 1)
  {
    hide Oldest, Candidates, Claimed, Holds, Settled, Undisturbed, Verdict, ByAnother;
    claimed := store.ClaimBatch(p.worker, batchSize, now, busy);
    ghost var start := store.rows;
    ClaimedAreHeld(old(store.rows), p.worker, now, busy, batchSize, claimed);
    var published, failed, deferred, stale := 0, 0, 0, 0;
    for i := 0 to |claimed|
      invariant published == Count(WasPublished, p.configured, p.outcomes, i)
      invariant failed == Count(WasFailed, p.configured, p.outcomes, i)
      invariant deferred == Count(WasDeferred, p.configured, p.outcomes, i)
      invariant stale == Count(WasStale, p.configured, p.outcomes, i)
      invariant forall k | i <= k < |claimed| ::
                  Holds(store.rows, p.worker, claimed[k])
                  && Attempts(store.rows, claimed[k]) == Attempts(start, claimed[k])
      invariant forall k | 0 <= k < i :: SettledAt(store.rows, claimed[k], p, k, Attempts(start, claimed[k]))
    {
      label Start:
      var handled := HandleEvent(store, p.worker, claimed[i], p.configured, p.outcomes(i), p.errors(i), p.clock(i),
                                 p.clock(i) + p.retryDelayMs, others(2 * i), others(2 * i + 1));
      ListAfter(start, old@Start(store.rows), store.rows, claimed, i, p);
      match handled {
        case WasPublished => published := published + 1;
        case WasFailed => failed := failed + 1;
        case WasDeferred => deferred := deferred + 1;
        case WasStale => stale := stale + 1;
      }
    }
    CountsPartition(p.configured, p.outcomes, |claimed|);
    summary := Summary(|claimed|, published, failed, deferred, stale);
  }

  lemma KeptByOthers(rows: Rows, actions: seq<RowAction>, worker: Id, event: Id)
    requires forall a | a in actions :: ByAnother(a, worker)
    ensures Undisturbed(rows, ActAll(rows, actions), worker, event)
    ensures event in rows && (rows[event].publishedAt.Some? || Holds(rows, worker, event)) ==>
              event in ActAll(rows, actions) && ActAll(rows, actions)[event] == rows[event]
  {
    forall r | r in rows
      ensures r in ActAll(rows, actions)
      ensures rows[r].publishedAt.Some? || Holds(rows, worker, r) ==> ActAll(rows, actions)[r] == rows[r]
      ensures !Holds(rows, worker, r) ==> !Holds(ActAll(rows, actions), worker, r)
      ensures rows[r].attemptCount <= ActAll(rows, actions)[r].attemptCount
      ensures rows[r].publishedAt.None? && rows[r].lockedAt.None? && rows[r].lockedBy.None? ==>
                ActAll(rows, actions)[r] == rows[r] || rows[r].attemptCount < ActAll(rows, actions)[r].attemptCount
    {
      ActAllKeeps(rows, actions, worker, r);
    }
    hide ActAll, Holds;
  }
}
