/** `PostgresOutboxStore`: claiming, publishing and retrying queued rows, one statement at a time. */
module OutboxQueue {
  import opened Texts

  type Time = int

  datatype QueueRow = QueueRow(
    createdAt: Time, availableAt: Time, lockedAt: Option<Time>, lockedBy: Option<Id>, publishedAt: Option<Time>,
    attemptCount: nat, lastError: Option<Text>)

  type Rows = map<Id, QueueRow>

  /******* Queue order *******/

  /** `ORDER BY available_at, created_at, outbox_id` */
  predicate Before(rows: Rows, a: Id, b: Id)
    requires a in rows && b in rows
  {
    var x, y := rows[a], rows[b];
    x.availableAt < y.availableAt
    || (x.availableAt == y.availableAt
        && (x.createdAt < y.createdAt || (x.createdAt == y.createdAt && Less(a, b))))
  }

  lemma BeforeTotal(rows: Rows, a: Id, b: Id)
    requires a in rows && b in rows
    ensures Before(rows, a, b) || a == b || Before(rows, b, a)
    ensures !(Before(rows, a, b) && Before(rows, b, a)) && !Before(rows, a, a)
  {
    LessTotal(a, b);
    LessTotal(a, a);
  }

  lemma BeforeTransitive(rows: Rows, a: Id, b: Id, c: Id)
    requires a in rows && b in rows && c in rows && Before(rows, a, b) && Before(rows, b, c)
    ensures Before(rows, a, c)
  {
    if Less(a, b) && Less(b, c) {
      LessTransitive(a, b, c);
    }
  }

  predicate Claimable(r: QueueRow, now: Time) {
    r.publishedAt.None? && r.lockedAt.None? && r.availableAt <= now
  }

  /** The claimable rows, without those another statement is working on (`SKIP LOCKED`). */
  function Candidates(rows: Rows, now: Time, busy: set<Id>): set<Id> {
    set r | r in rows && r !in busy && Claimable(rows[r], now)
  }

  /** The first `n` candidates, in queue order. */
  predicate Oldest(rows: Rows, candidates: set<Id>, n: nat, chosen: seq<Id>)
    requires candidates <= rows.Keys
  {
    && |chosen| <= n
    && (forall k | 0 <= k < |chosen| :: chosen[k] in candidates)
    && (forall j, k | 0 <= j < k < |chosen| :: Before(rows, chosen[j], chosen[k]))
    && (forall r | r in candidates && r !in chosen ::
          |chosen| == n && forall k | 0 <= k < |chosen| :: Before(rows, chosen[k], r))
  }

  /** Two claims of the same rows would take the same rows in the same order: the choice is determined. */
  lemma OldestUnique(rows: Rows, candidates: set<Id>, n: nat, x: seq<Id>, y: seq<Id>)
    requires candidates <= rows.Keys && Oldest(rows, candidates, n, x) && Oldest(rows, candidates, n, y)
    ensures x == y
  {
    var k := 0;
    while k < |x| && k < |y|
      invariant k <= |x| && k <= |y| && x[..k] == y[..k]
    {
      if x[k] != y[k] {
        BeforeTotal(rows, x[k], y[k]);
        if Before(rows, x[k], y[k]) {
          NotLater(rows, candidates, n, y, x, k);
        } else {
          NotLater(rows, candidates, n, x, y, k);
        }
      }
      k := k + 1;
    }
    NoneMissing(rows, candidates, n, x, y);
    NoneMissing(rows, candidates, n, y, x);
  }

  lemma NotLater(rows: Rows, candidates: set<Id>, n: nat, x: seq<Id>, y: seq<Id>, k: nat)
    requires candidates <= rows.Keys && Oldest(rows, candidates, n, x) && Oldest(rows, candidates, n, y)
    requires k < |x| && k < |y| && x[..k] == y[..k] && x[k] != y[k]
    ensures !Before(rows, y[k], x[k])
  {
    BeforeTotal(rows, x[k], y[k]);
    if y[k] in x {
      var j :| 0 <= j < |x| && x[j] == y[k];
      if j < k {
        assert x[j] == x[..k][j] == y[..k][j] == y[j];
        BeforeTotal(rows, y[j], y[k]);
      }
    }
  }

  lemma NoneMissing(rows: Rows, candidates: set<Id>, n: nat, x: seq<Id>, y: seq<Id>)
    requires candidates <= rows.Keys && Oldest(rows, candidates, n, x) && Oldest(rows, candidates, n, y)
    ensures !(|x| < |y| && x == y[..|x|])
  {
    if |x| < |y| && x == y[..|x|] {
      var r := y[|x|];
      forall j | 0 <= j < |x| ensures x[j] != r {
        BeforeTotal(rows, y[j], r);
      }
    }
  }

  /******* The three statements *******/

  function Claimed(rows: Rows, chosen: seq<Id>, worker: Id, now: Time): Rows {
    map r | r in rows ::
      if r in chosen then
        rows[r].(lockedAt := Some(now), lockedBy := Some(worker), attemptCount := rows[r].attemptCount + 1)
      else rows[r]
  }

  /** The row is claimed by this worker and not published: the guard of both closing statements. */
  predicate Holds(rows: Rows, worker: Id, r: Id) {
    r in rows && rows[r].lockedBy == Some(worker) && rows[r].lockedAt.Some? && rows[r].publishedAt.None?
  }

  function Published(rows: Rows, r: Id, at: Time): Rows
    requires r in rows
  {
    rows[r := rows[r].(publishedAt := Some(at), lockedAt := None, lockedBy := None, lastError := None)]
  }

  function Released(rows: Rows, r: Id, retryAt: Time, error: Text): Rows
    requires r in rows
  {
    rows[r := rows[r].(availableAt := retryAt, lockedAt := None, lockedBy := None, lastError := Some(error))]
  }

  /** The row may be claimed at this time: unpublished, unlocked, and its time has come. */
  predicate Due(rows: Rows, r: Id, now: Time) {
    r in rows && rows[r].publishedAt == None && rows[r].lockedAt == None && !(now < rows[r].availableAt)
  }

  /** Nothing but row `r` differs, and of that row neither its age nor its attempts. */
  predicate OnlyTouches(before: Rows, after: Rows, r: Id) {
    && before.Keys == after.Keys && (forall x | x in before && x != r :: after[x] == before[x])
    && (r in before ==> after[r].createdAt == before[r].createdAt && after[r].attemptCount == before[r].attemptCount)
  }

  /** The row has been published for good at this time: no lock and no error is left. */
  predicate DoneAt(rows: Rows, r: Id, at: Time) {
    r in rows && rows[r].publishedAt == Some(at) && rows[r].lockedAt == None && rows[r].lockedBy == None
    && rows[r].lastError == None
  }

  /** The row waits for its next attempt, with the error of the last one. */
  predicate WaitsFor(rows: Rows, r: Id, retryAt: Time, error: Text) {
    && r in rows && rows[r].publishedAt == None && rows[r].lockedAt == None && rows[r].lockedBy == None
    && rows[r].availableAt == retryAt && rows[r].lastError == Some(error)
  }

  /** One statement as other workers, or the reducers' inserts, run it. */
  datatype RowAction =
    | Claim(worker: Id, chosen: seq<Id>, now: Time)
    | Mark(worker: Id, r: Id, at: Time)
    | Release(worker: Id, r: Id, retryAt: Time, error: Text)
    | Insert(r: Id, createdAt: Time, availableAt: Time)

  function Act(rows: Rows, a: RowAction): Rows {
    match a
    case Claim(worker, chosen, now) =>
      if forall r | r in chosen :: r in rows && Claimable(rows[r], now) then Claimed(rows, chosen, worker, now)
      else rows
    case Mark(worker, r, at) => if Holds(rows, worker, r) then Published(rows, r, at) else rows
    case Release(worker, r, retryAt, error) =>
      if Holds(rows, worker, r) then Released(rows, r, retryAt, error) else rows
    case Insert(r, createdAt, availableAt) =>
      if r in rows then rows else rows[r := QueueRow(createdAt, availableAt, None, None, None, 0, None)]
  }

  /** A new row is due from the time it was given, and has never been tried. */
  lemma InsertedIs(rows: Rows, r: Id, createdAt: Time, availableAt: Time, now: Time)
    requires r !in rows
    ensures var n := Act(rows, Insert(r, createdAt, availableAt));
            && n.Keys == rows.Keys + {r} && (forall x | x in rows :: n[x] == rows[x])
            && (Due(n, r, now) <==> availableAt <= now)
            && n[r].createdAt == createdAt && n[r].attemptCount == 0 && n[r].lastError == None
  {
  }

  function ActAll(rows: Rows, actions: seq<RowAction>): Rows
    decreases |actions|
  {
    if actions == [] then rows else ActAll(Act(rows, actions[0]), actions[1..])
  }

  predicate ByAnother(a: RowAction, worker: Id) {
    a.Insert? || a.worker != worker
  }

  /** Rows stay; a published row never changes again; a held row changes only by its holder. */
  lemma ActKeeps(rows: Rows, a: RowAction, r: Id)
    requires r in rows
    ensures r in Act(rows, a)
    ensures rows[r].publishedAt.Some? ==> Act(rows, a)[r] == rows[r]
    ensures forall w | ByAnother(a, w) :: Holds(rows, w, r) ==> Act(rows, a)[r] == rows[r]
    ensures forall w | ByAnother(a, w) :: Holds(Act(rows, a), w, r) ==> Holds(rows, w, r)
    ensures rows[r].attemptCount <= Act(rows, a)[r].attemptCount
    ensures rows[r].publishedAt.None? && rows[r].lockedAt.None? && rows[r].lockedBy.None? ==>
              || Act(rows, a)[r] == rows[r]
              || (rows[r].attemptCount < Act(rows, a)[r].attemptCount && ClaimsDue(rows, a, r))
  {
  }

  /** The statement claims the row, and it is due. */
  predicate ClaimsDue(rows: Rows, a: RowAction, r: Id) {
    a.Claim? && r in a.chosen && Due(rows, r, a.now)
  }

  lemma {:induction false} ActAllKeeps(rows: Rows, actions: seq<RowAction>, worker: Id, r: Id)
    requires r in rows && forall a | a in actions :: ByAnother(a, worker)
    ensures r in ActAll(rows, actions)
    ensures rows[r].publishedAt.Some? || Holds(rows, worker, r) ==> ActAll(rows, actions)[r] == rows[r]
    ensures !Holds(rows, worker, r) ==> !Holds(ActAll(rows, actions), worker, r)
    ensures rows[r].attemptCount <= ActAll(rows, actions)[r].attemptCount
    ensures rows[r].publishedAt.None? && rows[r].lockedAt.None? && rows[r].lockedBy.None? ==>
              ActAll(rows, actions)[r] == rows[r] || rows[r].attemptCount < ActAll(rows, actions)[r].attemptCount
    decreases |actions|
  {
    hide Act, ClaimsDue;
    if actions != [] {
      ActKeeps(rows, actions[0], r);
      assert ByAnother(actions[0], worker);
      ActAllKeeps(Act(rows, actions[0]), actions[1..], worker, r);
    }
  }

  class OutboxStore {
    var rows: Rows

    constructor (initial: Rows)
      ensures rows == initial
    {
      rows := initial;
    }

    method ClaimBatch(worker: Id, batchSize: nat, now: Time, busy: set<Id>) returns (chosen: seq<Id>)
      modifies this
      ensures Oldest(old(rows), Candidates(old(rows), now, busy), batchSize, chosen)
      ensures rows == Claimed(old(rows), chosen, worker, now)
      ensures forall r | r in chosen :: Due(old(rows), r, now) && r !in busy
      ensures |chosen| < batchSize ==> forall r | Due(old(rows), r, now) && r !in busy :: r in chosen
    {
      var candidates := Candidates(rows, now, busy);
      chosen := [];
      var rest := candidates;
      while |chosen| < batchSize && rest != {}
        invariant rows == old(rows) && candidates <= rows.Keys
        invariant forall r :: r in rest <==> r in candidates && r !in chosen
        invariant |chosen| <= batchSize
        invariant forall k | 0 <= k < |chosen| :: chosen[k] in candidates
        invariant forall j, k | 0 <= j < k < |chosen| :: Before(rows, chosen[j], chosen[k])
        invariant forall k, r | 0 <= k < |chosen| && r in rest :: Before(rows, chosen[k], r)
      {
        var first := First(rest);
        chosen := chosen + [first];
        rest := rest - {first};
      }
      rows := Claimed(rows, chosen, worker, now);
    }

    /** The row of the set that comes first in queue order. */
    method First(rest: set<Id>) returns (first: Id)
      requires rest != {} && rest <= rows.Keys
      ensures first in rest && forall r | r in rest && r != first :: Before(rows, first, r)
    {
      first :| first in rest;
      var todo := rest - {first};
      while todo != {}
        invariant todo <= rest && first in rest - todo
        invariant forall r | r in rest - todo && r != first :: Before(rows, first, r)
      {
        var r :| r in todo;
        BeforeTotal(rows, first, r);
        if Before(rows, r, first) {
          forall x | x in rest - todo && x != first ensures Before(rows, r, x) {
            BeforeTransitive(rows, r, first, x);
          }
          first := r;
        }
        todo := todo - {r};
      }
    }

    method MarkPublished(r: Id, worker: Id, at: Time) returns (done: bool)
      modifies this
      ensures done <==> Holds(old(rows), worker, r)
      ensures rows == if done then Published(old(rows), r, at) else old(rows)
      ensures done ==> OnlyTouches(old(rows), rows, r) && DoneAt(rows, r, at)
      ensures done ==> rows[r].availableAt == old(rows)[r].availableAt
    {
      done := Holds(rows, worker, r);
      if done {
        rows := Published(rows, r, at);
      }
    }

    method RecordFailure(r: Id, worker: Id, retryAt: Time, error: Text) returns (done: bool)
      modifies this
      ensures done <==> Holds(old(rows), worker, r)
      ensures rows == if done then Released(old(rows), r, retryAt, error) else old(rows)
      ensures done ==> OnlyTouches(old(rows), rows, r) && WaitsFor(rows, r, retryAt, error)
    {
      done := Holds(rows, worker, r);
      if done {
        rows := Released(rows, r, retryAt, error);
      }
    }

    /** What the other workers and the reducers do between two of our statements. */
    method OthersAct(actions: seq<RowAction>)
      modifies this
      ensures rows == ActAll(old(rows), actions)
    {
      rows := ActAll(rows, actions);
    }
  }
}
