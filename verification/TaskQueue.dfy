/** `EdgeWebSocketGateway`: one chain of tasks per robot, and an orderly shutdown. */
module TaskQueue {
  import opened Texts

  /******* Promises *******/

  datatype Outcome = Fulfilled | Rejected

  /** `p.catch(handler)`: it settles as `p` does, or as the handler that ran because `p` was rejected. */
  function Caught(p: Option<Outcome>, handler: Option<Outcome>): Option<Outcome> {
    if p == Some(Rejected) then handler else p
  }

  /** `p.then(task)` runs the task when `p` is fulfilled; when `p` is rejected it is rejected without running it. */
  predicate Runs(p: Option<Outcome>) {
    p == Some(Fulfilled)
  }

  /** A promise behind a catch runs what follows as soon as it has settled, however it did. */
  lemma CaughtRuns(p: Option<Outcome>)
    ensures Runs(Caught(p, Some(Fulfilled))) <==> p.Some?
  {
    match p
    case Some(Fulfilled) =>
    case Some(Rejected) =>
    case None =>
  }

  /******* The queue *******/

  /** A queued task, and the task whose promise it was chained on if the robot had one in progress. */
  datatype Task = Task(robot: Id, previous: Option<nat>)

  datatype Closing = Open | Draining(pending: set<nat>) | Closed

  /**
   The promises created so far, the map of each robot's tail, the tasks that have begun, in the order they began,
   how those that have ended did, and how the promises of the tails have settled. A task's number is its place in
   enqueue order. A tail is the task's promise with an error handler behind it, which may itself throw.
   */
  datatype Queue = Queue(
    tasks: seq<Task>, processing: map<Id, nat>, begun: seq<nat>, ended: map<nat, Outcome>,
    settled: map<nat, Outcome>, closing: Closing)

  const EMPTY := Queue([], map[], [], map[], map[], Open)

  datatype Action =
    | Enqueue(robot: Id)
    | Start(t: nat)
    | End(t: nat, outcome: Outcome)
    | HandleError(t: nat, handler: Outcome)
    | CleanUp(t: nat)
    | BeginClose
    | EndClose

  function OutcomeOf(outcomes: map<nat, Outcome>, t: nat): Option<Outcome> {
    if t in outcomes then Some(outcomes[t]) else None
  }

  /** The promise a task is chained on: the robot's tail when it was queued, or one that is already fulfilled. */
  function Previous(q: Queue, t: nat): Option<Outcome>
    requires t < |q.tasks|
  {
    if q.tasks[t].previous.Some? then OutcomeOf(q.settled, q.tasks[t].previous.value) else Some(Fulfilled)
  }

  /** `previous.catch(() => undefined).then(task)` runs the task. */
  predicate CanStart(q: Queue, t: nat) {
    t < |q.tasks| && t !in q.begun && Runs(Caught(Previous(q, t), Some(Fulfilled)))
  }

  function Ended(q: Queue, t: nat, outcome: Outcome): Queue {
    var tail := Caught(Some(outcome), None);
    q.(ended := q.ended[t := outcome], settled := if tail.Some? then q.settled[t := tail.value] else q.settled)
  }

  function Handled(q: Queue, t: nat, handler: Outcome): Queue {
    var tail := Caught(OutcomeOf(q.ended, t), Some(handler));
    if tail.Some? then q.(settled := q.settled[t := tail.value]) else q
  }

  function Enqueued(q: Queue, robot: Id): Queue {
    if !q.closing.Open? then q
    else
      var previous := if robot in q.processing then Some(q.processing[robot]) else None;
      q.(tasks := q.tasks + [Task(robot, previous)], processing := q.processing[robot := |q.tasks|])
  }

  /** A disabled action changes nothing. */
  function Next(q: Queue, a: Action): Queue {
    match a
    case Enqueue(robot) => Enqueued(q, robot)
    case Start(t) => if CanStart(q, t) then q.(begun := q.begun + [t]) else q
    case End(t, outcome) => if t in q.begun && t !in q.ended then Ended(q, t, outcome) else q
    case HandleError(t, handler) =>
      if OutcomeOf(q.ended, t) == Some(Rejected) && t !in q.settled then Handled(q, t, handler) else q
    case CleanUp(t) =>
      if t < |q.tasks| && t in q.settled && q.tasks[t].robot in q.processing && q.processing[q.tasks[t].robot] == t
      then q.(processing := q.processing - {q.tasks[t].robot})
      else q
    case BeginClose => if q.closing.Open? then q.(closing := Draining(q.processing.Values)) else q
    case EndClose =>
      if q.closing.Draining? && q.closing.pending <= q.settled.Keys then q.(closing := Closed, processing := map[])
      else q
  }

  function Execute(q: Queue, actions: seq<Action>): Queue
    decreases |actions|
  {
    if actions == [] then q else Execute(Next(q, actions[0]), actions[1..])
  }

  /******* The invariant *******/

  predicate SameRobot(tasks: seq<Task>, t: nat, u: nat) {
    t < |tasks| && u < |tasks| && tasks[t].robot == tasks[u].robot
  }

  ghost predicate Numbered(q: Queue) {
    && (forall t | t in q.settled :: t in q.ended)
    && (forall t | t in q.ended :: t in q.begun)
    && (forall t | t in q.begun :: t < |q.tasks|)
  }

  /** A robot without an entry has nothing left to do; an entry is the robot's last task. */
  ghost predicate TailsSound(q: Queue) {
    && (forall t: nat | t < |q.tasks| && t !in q.settled :: q.tasks[t].robot in q.processing)
    && (forall r | r in q.processing :: q.processing[r] < |q.tasks| && q.tasks[q.processing[r]].robot == r)
    && (forall r, t: nat | r in q.processing && SameRobot(q.tasks, t, q.processing[r]) :: t <= q.processing[r])
  }

  /** A task that has begun has only settled tasks of its robot before it. */
  ghost predicate BegunInOrder(q: Queue) {
    forall t: nat, u: nat | u < t && SameRobot(q.tasks, t, u) && t in q.begun :: u in q.settled
  }

  /** A task is chained behind every task of its robot that had not settled before it was queued. */
  ghost predicate ChainSound(q: Queue) {
    && (forall t: nat | t < |q.tasks| && q.tasks[t].previous.Some? ::
          q.tasks[t].previous.value < t && SameRobot(q.tasks, t, q.tasks[t].previous.value))
    && (forall t: nat, u: nat | u < t && SameRobot(q.tasks, t, u) && u !in q.settled ::
          q.tasks[t].previous.Some? && u <= q.tasks[t].previous.value)
  }

  /** While closing, every unsettled task is at or before a pending one of its robot. */
  ghost predicate DrainSound(q: Queue) {
    match q.closing
    case Open => true
    case Draining(pending) =>
      (forall l | l in pending :: l < |q.tasks|)
      && forall t: nat | t < |q.tasks| && t !in q.settled ::
           exists l :: l in pending && t <= l && SameRobot(q.tasks, l, t)
    case Closed => forall t: nat | t < |q.tasks| :: t in q.settled
  }

  /** Tasks of one robot began in the order they were queued, each once. */
  ghost predicate LogSound(q: Queue) {
    forall j, k | 0 <= j < k < |q.begun| && SameRobot(q.tasks, q.begun[j], q.begun[k]) :: q.begun[j] < q.begun[k]
  }

  ghost predicate Safe(q: Queue) {
    Numbered(q) && TailsSound(q) && BegunInOrder(q) && ChainSound(q) && DrainSound(q) && LogSound(q)
  }

  /** A task may begin only when all earlier tasks of its robot have settled. */
  lemma StartsAfterEarlier(q: Queue, t: nat, u: nat)
    requires ChainSound(q) && BegunInOrder(q) && Numbered(q) && CanStart(q, t) && u < t && SameRobot(q.tasks, t, u)
    ensures u in q.settled
  {
    if u !in q.settled {
      var p := q.tasks[t].previous.value;
      assert SameRobot(q.tasks, p, u);
    }
  }

  lemma SafeStart(q: Queue, t: nat)
    requires Safe(q) && CanStart(q, t)
    ensures Safe(q.(begun := q.begun + [t]))
  {
    hide TailsSound, ChainSound, DrainSound, CanStart;
    forall u: nat | u < t && SameRobot(q.tasks, t, u) ensures u in q.settled {
      StartsAfterEarlier(q, t, u);
    }
    assert t < |q.tasks| && t !in q.begun by {
      StartedIsNew(q, t);
    }
    forall k | 0 <= k < |q.begun| && SameRobot(q.tasks, q.begun[k], t) ensures q.begun[k] < t {
      assert SameRobot(q.tasks, q.begun[k], t) && q.begun[k] in q.begun;
    }
    BegunElsewhere(q, t);
  }

  lemma StartedIsNew(q: Queue, t: nat)
    requires CanStart(q, t)
    ensures t < |q.tasks| && t !in q.begun
  {
  }

  lemma BegunElsewhere(q: Queue, t: nat)
    ensures var n := q.(begun := q.begun + [t]);
            (TailsSound(q) ==> TailsSound(n)) && (ChainSound(q) ==> ChainSound(n)) && (DrainSound(q) ==> DrainSound(n))
  {
  }

  lemma SafeEnqueue(q: Queue, robot: Id)
    requires Safe(q) && q.closing.Open?
    ensures Safe(Enqueued(q, robot))
  {
    hide TailsSound, ChainSound;
    var n := Enqueued(q, robot);
    forall t: nat, u: nat | u < t && SameRobot(n.tasks, t, u) && t in n.begun ensures u in n.settled {
      assert SameRobot(q.tasks, t, u);
    }
    forall j, k | 0 <= j < k < |q.begun| && SameRobot(n.tasks, q.begun[j], q.begun[k]) ensures q.begun[j] < q.begun[k] {
      assert q.begun[j] in q.begun && q.begun[k] in q.begun && SameRobot(q.tasks, q.begun[j], q.begun[k]);
    }
    EnqueueKeepsTails(q, robot);
    EnqueueKeepsChain(q, robot);
  }

  lemma EnqueueKeepsTails(q: Queue, robot: Id)
    requires TailsSound(q) && Numbered(q)
    ensures TailsSound(Enqueued(q, robot))
  {
    var n := Enqueued(q, robot);
    if q.closing.Open? {
      forall r, t: nat | r in n.processing && SameRobot(n.tasks, t, n.processing[r]) ensures t <= n.processing[r] {
        assert r != robot ==> SameRobot(q.tasks, t, q.processing[r]);
      }
    }
  }

  lemma EnqueueKeepsChain(q: Queue, robot: Id)
    requires TailsSound(q) && ChainSound(q) && Numbered(q)
    ensures ChainSound(Enqueued(q, robot))
  {
    var n, k := Enqueued(q, robot), |q.tasks|;
    if q.closing.Open? {
      forall t: nat, u: nat | u < t && SameRobot(n.tasks, t, u) && u !in n.settled
        ensures n.tasks[t].previous.Some? && u <= n.tasks[t].previous.value
      {
        if t < k {
          assert SameRobot(q.tasks, t, u);
        } else {
          assert robot in q.processing && SameRobot(q.tasks, u, q.processing[robot]);
        }
      }
    }
  }

  lemma SafeSettle(q: Queue, t: nat, ended: map<nat, Outcome>, tail: Outcome)
    requires Safe(q) && t in q.begun && t in ended && ended.Keys == q.ended.Keys + {t}
    ensures Safe(q.(ended := ended, settled := q.settled[t := tail]))
  {
  }

  lemma SafeEnd(q: Queue, t: nat, outcome: Outcome)
    requires Safe(q) && t in q.begun
    ensures Safe(Ended(q, t, outcome))
  {
    hide TailsSound, BegunInOrder, ChainSound, DrainSound, LogSound;
    if outcome.Fulfilled? {
      SafeSettle(q, t, q.ended[t := outcome], Fulfilled);
    } else {
      EndedElsewhere(q, t, outcome);
    }
  }

  /** A rejected task has not settled its tail yet. */
  lemma EndedElsewhere(q: Queue, t: nat, outcome: Outcome)
    requires outcome.Rejected?
    ensures var n := Ended(q, t, outcome);
            && (TailsSound(q) ==> TailsSound(n)) && (BegunInOrder(q) ==> BegunInOrder(n))
            && (ChainSound(q) ==> ChainSound(n)) && (DrainSound(q) ==> DrainSound(n)) && (LogSound(q) ==> LogSound(n))
  {
  }

  lemma SafeHandled(q: Queue, t: nat, handler: Outcome)
    requires Safe(q) && OutcomeOf(q.ended, t) == Some(Rejected)
    ensures Safe(Handled(q, t, handler))
  {
    hide TailsSound, BegunInOrder, ChainSound, DrainSound, LogSound;
    SafeSettle(q, t, q.ended, handler);
  }

  lemma SafeCleanUp(q: Queue, t: nat)
    requires Safe(q)
    ensures Safe(Next(q, CleanUp(t)))
  {
    hide ChainSound, LogSound, DrainSound;
    var n := Next(q, CleanUp(t));
    if n != q {
      var r := q.tasks[t].robot;
      forall u: nat | u < |q.tasks| && q.tasks[u].robot == r ensures u in q.settled {
        assert SameRobot(q.tasks, t, u) && SameRobot(q.tasks, u, t);
      }
    }
    CleanUpElsewhere(q, t);
  }

  lemma CleanUpElsewhere(q: Queue, t: nat)
    ensures var n := Next(q, CleanUp(t));
            (ChainSound(q) ==> ChainSound(n)) && (LogSound(q) ==> LogSound(n)) && (DrainSound(q) ==> DrainSound(n))
  {
  }

  lemma SafeBeginClose(q: Queue)
    requires Safe(q) && q.closing.Open?
    ensures Safe(q.(closing := Draining(q.processing.Values)))
  {
    var n := q.(closing := Draining(q.processing.Values));
    forall t: nat | t < |q.tasks| && t !in q.settled
      ensures exists l :: l in n.closing.pending && t <= l && SameRobot(q.tasks, l, t)
    {
      var l := q.processing[q.tasks[t].robot];
      assert l in q.processing.Values && SameRobot(q.tasks, t, l) && SameRobot(q.tasks, l, t);
    }
    hide ChainSound, LogSound, BegunInOrder;
  }

  lemma EarlierSettled(q: Queue, t: nat, l: nat)
    requires Numbered(q) && BegunInOrder(q) && l in q.settled && t <= l && SameRobot(q.tasks, l, t)
    ensures t in q.settled
  {
  }

  lemma SafeEndClose(q: Queue)
    requires Safe(q) && q.closing.Draining? && q.closing.pending <= q.settled.Keys
    ensures Safe(q.(closing := Closed, processing := map[]))
  {
    hide LogSound, BegunInOrder, Numbered, ChainSound, TailsSound;
    forall t: nat | t < |q.tasks| ensures t in q.settled {
      if t !in q.settled {
        var l :| l in q.closing.pending && t <= l && SameRobot(q.tasks, l, t);
        EarlierSettled(q, t, l);
      }
    }
    hide DrainSound;
    ClosedElsewhere(q);
  }

  lemma ClosedElsewhere(q: Queue)
    requires Numbered(q) && BegunInOrder(q) && ChainSound(q) && LogSound(q)
    requires forall t: nat | t < |q.tasks| :: t in q.settled
    ensures Safe(q.(closing := Closed, processing := map[]))
  {
  }

  lemma SafeNext(q: Queue, a: Action)
    requires Safe(q)
    ensures Safe(Next(q, a))
  {
    hide Safe;
    match a
    case Enqueue(robot) =>
      if q.closing.Open? {
        SafeEnqueue(q, robot);
      }
    case Start(t) =>
      if CanStart(q, t) {
        SafeStart(q, t);
      }
    case End(t, outcome) =>
      if t in q.begun {
        SafeEnd(q, t, outcome);
      }
    case HandleError(t, handler) =>
      if OutcomeOf(q.ended, t) == Some(Rejected) {
        SafeHandled(q, t, handler);
      }
    case CleanUp(t) => SafeCleanUp(q, t);
    case BeginClose =>
      if q.closing.Open? {
        SafeBeginClose(q);
      }
    case EndClose =>
      if q.closing.Draining? && q.closing.pending <= q.settled.Keys {
        SafeEndClose(q);
      }
  }

  lemma {:induction false} SafeExecution(q: Queue, actions: seq<Action>)
    requires Safe(q)
    ensures Safe(Execute(q, actions))
    decreases |actions|
  {
    hide Next, Safe;
    if actions != [] {
      SafeNext(q, actions[0]);
      SafeExecution(Next(q, actions[0]), actions[1..]);
    }
  }

  /******* What the gateway guarantees *******/

  lemma SafeInitially()
    ensures Safe(EMPTY)
  {
  }

  /** Tasks of one robot never overlap: while one is running, no other of that robot is. */
  lemma NoOverlap(actions: seq<Action>, t: nat, u: nat)
    requires var q := Execute(EMPTY, actions);
             && SameRobot(q.tasks, t, u)
             && t in q.begun && t !in q.settled && u in q.begun && u !in q.settled
    ensures t == u
  {
    SafeInitially();
    SafeExecution(EMPTY, actions);
    hide Execute;
    assert SameRobot(Execute(EMPTY, actions).tasks, u, t);
  }

  /** They begin in the order they were queued, and only after everything queued before them has settled. */
  lemma EnqueueOrder(actions: seq<Action>, t: nat)
    requires t in Execute(EMPTY, actions).begun
    ensures var q := Execute(EMPTY, actions);
            forall u: nat | u < t && SameRobot(q.tasks, t, u) :: u in q.settled && u in q.begun
    ensures var q := Execute(EMPTY, actions);
            forall j, k | 0 <= j < k < |q.begun| && SameRobot(q.tasks, q.begun[j], q.begun[k]) ::
              q.begun[j] < q.begun[k]
  {
    SafeInitially();
    SafeExecution(EMPTY, actions);
    hide Execute;
  }

  /** A finished shutdown has waited for every task ever queued. */
  lemma CloseWaitsForAll(actions: seq<Action>, t: nat)
    requires var q := Execute(EMPTY, actions); q.closing.Closed? && t < |q.tasks|
    ensures t in Execute(EMPTY, actions).settled
  {
    SafeInitially();
    SafeExecution(EMPTY, actions);
    hide Execute;
  }

  /** A shutdown can begin at any time, and it can finish exactly when every task ever queued has settled. */
  lemma ClosesExactly(actions: seq<Action>)
    ensures var q := Execute(EMPTY, actions);
            && (Next(q, BeginClose).closing.Draining? <==> !q.closing.Closed?)
            && (q.closing.Draining? ==>
                  (Next(q, EndClose).closing.Closed? <==> forall t | 0 <= t < |q.tasks| :: t in q.settled))
  {
    SafeInitially();
    SafeExecution(EMPTY, actions);
    SafeNext(Execute(EMPTY, actions), EndClose);
    hide Execute;
  }

  /** Once the shutdown has begun nothing is queued any more. */
  lemma {:induction false} NothingQueuedWhileClosing(q: Queue, actions: seq<Action>)
    requires !q.closing.Open?
    ensures Execute(q, actions).tasks == q.tasks && !Execute(q, actions).closing.Open?
    decreases |actions|
  {
    if actions != [] {
      NothingQueuedWhileClosing(Next(q, actions[0]), actions[1..]);
    }
  }

  /**
   A robot's next task can begin exactly when everything queued before it for that robot has settled, whether
   those tasks succeeded, failed, or failed with an error handler that failed too.
   */
  lemma StartsExactly(actions: seq<Action>, t: nat)
    requires var q := Execute(EMPTY, actions); t < |q.tasks| && t !in q.begun
    ensures var q := Execute(EMPTY, actions);
            CanStart(q, t) <==> forall u: nat | u < t && SameRobot(q.tasks, t, u) :: u in q.settled
  {
    SafeInitially();
    SafeExecution(EMPTY, actions);
    var q := Execute(EMPTY, actions);
    hide Execute;
    CaughtRuns(Previous(q, t));
    if CanStart(q, t) {
      forall u: nat | u < t && SameRobot(q.tasks, t, u) ensures u in q.settled {
        StartsAfterEarlier(q, t, u);
      }
    } else if q.tasks[t].previous.Some? {
      assert SameRobot(q.tasks, t, q.tasks[t].previous.value);
    }
  }

  /**
   The catch on the previous tail is what lets it: here the first task and its error handler have failed, the
   second task begins, and chained on that tail directly it would have been skipped.
   */
  lemma CatchMatters(robot: Id)
    ensures var failed := [Enqueue(robot), Enqueue(robot), Start(0), End(0, Rejected), HandleError(0, Rejected)];
            var q := Execute(EMPTY, failed);
            && q.settled == map[0 := Rejected] && CanStart(q, 1) && !Runs(Previous(q, 1))
            && 1 in Execute(EMPTY, failed + [Start(1)]).begun
  {
    var failed := [Enqueue(robot), Enqueue(robot), Start(0), End(0, Rejected), HandleError(0, Rejected)];
    var q1 := Next(Next(EMPTY, Enqueue(robot)), Enqueue(robot));
    var q2 := Next(Next(Next(q1, Start(0)), End(0, Rejected)), HandleError(0, Rejected));
    assert q2.tasks == [Task(robot, None), Task(robot, Some(0))];
    ExecuteFive(EMPTY, failed);
    ExecuteAppend(EMPTY, failed, [Start(1)]);
    hide Next;
  }

  lemma ExecuteFive(q: Queue, a: seq<Action>)
    requires |a| == 5
    ensures Execute(q, a) == Next(Next(Next(Next(Next(q, a[0]), a[1]), a[2]), a[3]), a[4])
  {
    hide Next;
    var b, c, d, e := a[1..], a[2..], a[3..], a[4..];
    assert b[1..] == c && c[1..] == d && d[1..] == e && e[1..] == [];
    var q2 := Next(Next(q, a[0]), a[1]);
    var q4 := Next(Next(q2, a[2]), a[3]);
    calc {
      Execute(q, a);
      Execute(Next(q, a[0]), b);
      Execute(q2, c);
      Execute(Next(q2, a[2]), d);
      Execute(q4, e);
      Execute(Next(q4, a[4]), []);
    }
  }

  lemma {:induction false} ExecuteAppend(q: Queue, a: seq<Action>, b: seq<Action>)
    ensures Execute(q, a + b) == Execute(Execute(q, a), b)
    decreases |a|
  {
    hide Next;
    if a == [] {
      assert a + b == b;
    } else {
      assert (a + b)[1..] == a[1..] + b;
      ExecuteAppend(Next(q, a[0]), a[1..], b);
    }
  }

  /******* The gateway *******/

  type Peer = nat

  class EdgeWebSocketGateway {
    var connectionsByRobot: map<Id, set<Peer>>
    var queue: Queue

    ghost predicate Valid()
      reads this
    {
      && Safe(queue)
      && (forall r | r in connectionsByRobot :: connectionsByRobot[r] != {})
    }

    constructor ()
      ensures Valid() && queue == EMPTY && connectionsByRobot == map[]
    {
      connectionsByRobot := map[];
      queue := EMPTY;
    }

    method AddPeer(robot: Id, peer: Peer)
      requires Valid()
      modifies this`connectionsByRobot
      ensures Valid()
      ensures robot in connectionsByRobot
              && connectionsByRobot[robot]
                 == {peer} + if robot in old(connectionsByRobot) then old(connectionsByRobot[robot]) else {}
      ensures connectionsByRobot - {robot} == old(connectionsByRobot) - {robot}
    {
      var peers := if robot in connectionsByRobot then connectionsByRobot[robot] else {};
      connectionsByRobot := connectionsByRobot[robot := peers + {peer}];
    }

    /** Queues the reconnect task exactly when the robot's last socket goes while the gateway is open. */
    method RemovePeer(robot: Id, peer: Peer)
      requires Valid()
      modifies this
      ensures Valid()
      ensures var last := robot in old(connectionsByRobot) && old(connectionsByRobot[robot]) <= {peer};
              && queue == (if last then Enqueued(old(queue), robot) else old(queue))
              && (robot in connectionsByRobot <==> robot in old(connectionsByRobot) && !last)
              && (robot in connectionsByRobot ==>
                    connectionsByRobot[robot] == old(connectionsByRobot[robot]) - {peer})
              && connectionsByRobot - {robot} == old(connectionsByRobot) - {robot}
    {
      if robot !in connectionsByRobot {
        return;
      }
      var peers := connectionsByRobot[robot] - {peer};
      if peers != {} {
        connectionsByRobot := connectionsByRobot[robot := peers];
        return;
      }
      connectionsByRobot := connectionsByRobot - {robot};
      if !queue.closing.Open? {
        return;
      }
      EnqueueRobotTask(robot);
    }

    /** Chains the task behind the robot's tail and makes it the new tail. */
    method EnqueueRobotTask(robot: Id)
      requires Valid()
      modifies this`queue
      ensures Valid() && queue == Enqueued(old(queue), robot)
    {
      if !queue.closing.Open? {
        return;
      }
      SafeNext(queue, Enqueue(robot));
      var previous := if robot in queue.processing then Some(queue.processing[robot]) else None;
      queue := queue.(
        tasks := queue.tasks + [Task(robot, previous)], processing := queue.processing[robot := |queue.tasks|]);
    }

    /** The synchronous part of the shutdown; the caller then waits for the pending tasks. */
    method CloseAll()
      requires Valid()
      modifies this
      ensures Valid() && queue == Next(old(queue), BeginClose) && connectionsByRobot == map[]
    {
      SafeNext(queue, BeginClose);
      queue := Next(queue, BeginClose);
      connectionsByRobot := map[];
    }

    /** Anything else: a task begins or ends, an error is handled, an entry is cleaned up, the wait ends. */
    method EventLoop(a: Action)
      requires Valid() && !a.Enqueue? && !a.BeginClose?
      modifies this`queue
      ensures Valid() && queue == Next(old(queue), a)
    {
      SafeNext(queue, a);
      queue := Next(queue, a);
    }
  }
}
