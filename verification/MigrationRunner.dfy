/** `runPostgresMigrations`, with other runners working on the same database between its transactions. */
module MigrationRunner {
  import opened Texts
  import opened Migrations

  /** Which runner executed the body of which migration. */
  datatype Execution = Execution(runner: nat, name: Id)

  datatype Database = Database(recorded: map<Id, Text>, log: seq<Execution>)

  datatype Tx = Tx(runner: nat, migration: SqlMigration)

  datatype TxResult = Ran | AlreadyThere | Refused

  /** One guarded transaction under the migration lock. */
  function Result(db: Database, m: SqlMigration): TxResult {
    if m.name !in db.recorded then Ran else if db.recorded[m.name] == m.checksum then AlreadyThere else Refused
  }

  function After(db: Database, tx: Tx): Database {
    if Result(db, tx.migration).Ran? then
      Database(db.recorded[tx.migration.name := tx.migration.checksum],
               db.log + [Execution(tx.runner, tx.migration.name)])
    else db
  }

  function AfterAll(db: Database, txs: seq<Tx>): Database
    decreases |txs|
  {
    if txs == [] then db else AfterAll(After(db, txs[0]), txs[1..])
  }

  /** Each body was executed at most once, and is recorded. */
  ghost predicate OnceEach(db: Database) {
    && (forall i, j | 0 <= i < j < |db.log| :: db.log[i].name != db.log[j].name)
    && (forall e | e in db.log :: e.name in db.recorded)
  }

  /** `n` records and has executed everything that `db` has, and executed exactly what it records in addition. */
  ghost predicate Grows(db: Database, n: Database) {
    && (forall x | x in db.recorded :: x in n.recorded && n.recorded[x] == db.recorded[x])
    && db.log <= n.log
    && (forall x :: x in n.recorded <==> x in db.recorded || exists k :: |db.log| <= k < |n.log| && n.log[k].name == x)
  }

  /** Whatever the interleaving of the runners' transactions, no body runs twice. */
  lemma {:induction false} AtMostOnce(db: Database, txs: seq<Tx>)
    requires OnceEach(db)
    ensures OnceEach(AfterAll(db, txs)) && Grows(db, AfterAll(db, txs))
    decreases |txs|
  {
    if txs != [] {
      var n := After(db, txs[0]);
      OneTransaction(db, txs[0]);
      AtMostOnce(n, txs[1..]);
      GrowsOn(db, n, AfterAll(n, txs[1..]));
    }
  }

  lemma OneTransaction(db: Database, tx: Tx)
    requires OnceEach(db)
    ensures OnceEach(After(db, tx)) && Grows(db, After(db, tx))
  {
    var n := After(db, tx);
    if Result(db, tx.migration).Ran? {
      assert n.log[|db.log|].name == tx.migration.name;
    }
  }

  lemma GrowsOn(a: Database, b: Database, c: Database)
    requires Grows(a, b) && Grows(b, c)
    ensures Grows(a, c)
  {
    forall x ensures x in c.recorded <==> x in a.recorded || exists k :: |a.log| <= k < |c.log| && c.log[k].name == x {
      if exists k :: |a.log| <= k < |c.log| && c.log[k].name == x {
        var k :| |a.log| <= k < |c.log| && c.log[k].name == x;
        assert k < |b.log| ==> b.log[k] == c.log[k];
      }
      if x in b.recorded && x !in a.recorded {
        var k :| |a.log| <= k < |b.log| && b.log[k].name == x;
        assert c.log[k] == b.log[k];
      }
    }
  }

  /******* One runner among others *******/

  ghost predicate DistinctNames(ms: seq<SqlMigration>) {
    forall i, j | 0 <= i < j < |ms| :: ms[i].name != ms[j].name
  }

  /** The database holds only migrations of this set, with their checksums. */
  ghost predicate Consistent(ms: seq<SqlMigration>, recorded: map<Id, Text>) {
    && (forall n | n in recorded :: HasName(ms, n))
    && (forall m | m in ms && m.name in recorded :: recorded[m.name] == m.checksum)
  }

  function Names(ms: seq<SqlMigration>, chosen: set<Id>, keep: bool): seq<Id> {
    if ms == [] then []
    else
      Names(ms[..|ms| - 1], chosen, keep)
      + if (ms[|ms| - 1].name in chosen) == keep then [ms[|ms| - 1].name] else []
  }

  datatype Summary =
    | Completed(applied: seq<Id>, skipped: seq<Id>)
    | PlanFailed(plan: Plan)
    | TransactionFailed(name: Id)

  class MigrationDatabase {
    var db: Database

    constructor (db: Database)
      ensures this.db == db
    {
      this.db := db;
    }

    method ReadApplied() returns (rows: seq<AppliedRow>)
      ensures forall i, j | 0 <= i < j < |rows| :: rows[i].name != rows[j].name
      ensures forall r | r in rows :: r.name in db.recorded && db.recorded[r.name] == r.checksum
      ensures forall n | n in db.recorded :: Recorded(rows, n)
    {
      rows := [];
      var todo := db.recorded.Keys;
      while todo != {}
        invariant todo <= db.recorded.Keys
        invariant forall i, j | 0 <= i < j < |rows| :: rows[i].name != rows[j].name
        invariant forall r | r in rows :: r.name in db.recorded.Keys - todo && db.recorded[r.name] == r.checksum
        invariant forall n | n in db.recorded.Keys - todo :: AppliedRow(n, db.recorded[n]) in rows
      {
        var n :| n in todo;
        rows := rows + [AppliedRow(n, db.recorded[n])];
        todo := todo - {n};
      }
      forall n | n in db.recorded ensures Recorded(rows, n) {
        assert AppliedRow(n, db.recorded[n]) in rows;
      }
    }

    method RunTransaction(runner: nat, m: SqlMigration) returns (r: TxResult)
      modifies this
      ensures r == Result(old(db), m) && db == After(old(db), Tx(runner, m))
    {
      r := Result(db, m);
      db := After(db, Tx(runner, m));
    }

    method OthersRun(txs: seq<Tx>)
      modifies this
      ensures db == AfterAll(old(db), txs)
    {
      db := AfterAll(db, txs);
    }
  }

  /** The names this runner executed, among these log entries. */
  function ExecutedBy(log: seq<Execution>, runner: nat): set<Id> {
    set e | e in log && e.runner == runner :: e.name
  }

  lemma {:induction false} OthersKeep(ms: seq<SqlMigration>, db: Database, txs: seq<Tx>, runner: nat)
    requires DistinctNames(ms) && OnceEach(db)
    requires forall tx | tx in txs :: tx.runner != runner && tx.migration in ms
    ensures var n := AfterAll(db, txs);
            && OnceEach(n) && Grows(db, n)
            && (Consistent(ms, n.recorded) <==> Consistent(ms, db.recorded))
            && forall k | |db.log| <= k < |n.log| :: n.log[k].runner != runner
    decreases |txs|
  {
    AtMostOnce(db, txs);
    if txs != [] {
      var n := After(db, txs[0]);
      OneTransaction(db, txs[0]);
      if Consistent(ms, db.recorded) {
        OneConsistent(ms, db, txs[0]);
      }
      OthersKeep(ms, n, txs[1..], runner);
    }
  }

  lemma OneConsistent(ms: seq<SqlMigration>, db: Database, tx: Tx)
    requires Consistent(ms, db.recorded) && tx.migration in ms && DistinctNames(ms)
    ensures Consistent(ms, After(db, tx).recorded)
    ensures !Result(db, tx.migration).Refused?
  {
    forall m | m in ms && m.name == tx.migration.name ensures m == tx.migration {
      var i :| 0 <= i < |ms| && ms[i] == m;
      var j :| 0 <= j < |ms| && ms[j] == tx.migration;
    }
    assert HasName(ms, tx.migration.name);
  }

  /** The database and the rows read from it agree with the files in the same cases. */
  lemma ReadingAgrees(ms: seq<SqlMigration>, recorded: map<Id, Text>, rows: seq<AppliedRow>)
    requires forall i, j | 0 <= i < j < |rows| :: rows[i].name != rows[j].name
    requires forall r | r in rows :: r.name in recorded && recorded[r.name] == r.checksum
    requires forall n | n in recorded :: Recorded(rows, n)
    ensures Agrees(ms, rows) <==> Consistent(ms, recorded)
  {
    hide HasName;
    if Agrees(ms, rows) {
      forall n | n in recorded ensures HasName(ms, n) {
        assert Recorded(rows, n);
      }
      forall m | m in ms && m.name in recorded ensures recorded[m.name] == m.checksum {
        assert Recorded(rows, m.name);
      }
    }
  }

  lemma {:induction false} NamesGrow(ms: seq<SqlMigration>, chosen: set<Id>, x: Id, keep: bool)
    requires forall m | m in ms :: m.name != x
    ensures Names(ms, chosen + {x}, keep) == Names(ms, chosen, keep)
  {
    if ms != [] {
      assert ms[|ms| - 1] in ms;
      NamesGrow(ms[..|ms| - 1], chosen, x, keep);
    }
  }

  lemma {:induction false} NoneChosen(ms: seq<SqlMigration>, chosen: set<Id>)
    requires forall m | m in ms :: m.name !in chosen
    ensures Names(ms, chosen, true) == []
  {
    if ms != [] {
      assert ms[|ms| - 1] in ms;
      NoneChosen(ms[..|ms| - 1], chosen);
    }
  }

  /** What this runner has executed since `from`, and nothing of what was recorded before. */
  ghost predicate Mine(before: Database, db: Database, runner: nat, mine: set<Id>) {
    && |before.log| <= |db.log|
    && mine == ExecutedBy(db.log[|before.log|..], runner)
    && forall x | x in mine :: x !in before.recorded
  }

  lemma OthersAreNotMine(before: Database, db: Database, n: Database, runner: nat, mine: set<Id>)
    requires Mine(before, db, runner, mine) && Grows(db, n)
    requires forall k | |db.log| <= k < |n.log| :: n.log[k].runner != runner
    ensures Mine(before, n, runner, mine)
  {
    var x, y := db.log[|before.log|..], n.log[|before.log|..];
    forall e ensures e in x && e.runner == runner <==> e in y && e.runner == runner {
      if e in y && e.runner == runner {
        var k :| 0 <= k < |y| && y[k] == e;
        assert n.log[|before.log| + k] == e;
        assert x[k] == e;
      }
      if e in x {
        var k :| 0 <= k < |x| && x[k] == e;
        assert y[k] == e;
      }
    }
  }

  lemma OneIsMine(before: Database, db: Database, runner: nat, mine: set<Id>, m: SqlMigration)
    requires Mine(before, db, runner, mine) && Grows(before, db)
    ensures var n := After(db, Tx(runner, m));
            Mine(before, n, runner, mine + if Result(db, m).Ran? then {m.name} else {})
  {
    var n := After(db, Tx(runner, m));
    if Result(db, m).Ran? {
      var e := Execution(runner, m.name);
      assert n.log[|before.log|..] == db.log[|before.log|..] + [e];
      assert forall f :: f in n.log[|before.log|..] <==> f in db.log[|before.log|..] || f == e;
      assert m.name in ExecutedBy(n.log[|before.log|..], runner) by {
        assert e in n.log[|before.log|..];
      }
    }
  }

  /** The two lists after one more migration. */
  lemma ListsStep(ms: seq<SqlMigration>, i: nat, mine: set<Id>, ran: bool, keep: bool)
    requires DistinctNames(ms) && i < |ms| && ms[i].name !in mine
    ensures var now := mine + if ran then {ms[i].name} else {};
            Names(ms[..i + 1], now, keep) == Names(ms[..i], mine, keep) + if ran == keep then [ms[i].name] else []
  {
    var now := mine + if ran then {ms[i].name} else {};
    assert ms[..i + 1][..i] == ms[..i];
    forall m | m in ms[..i] ensures m.name != ms[i].name {
      var k :| 0 <= k < i && ms[k] == m;
    }
    NamesGrow(ms[..i], mine, ms[i].name, keep);
    assert mine + {} == mine;
  }

  /** One transaction of this runner, after whatever the others have run meanwhile. */
  method ApplyEntry(database: MigrationDatabase, runner: nat, ms: seq<SqlMigration>, m: SqlMigration, txs: seq<Tx>,
                    ghost before: Database, ghost mine: set<Id>)
    returns (result: TxResult)
    requires DistinctNames(ms) && m in ms && OnceEach(database.db) && Grows(before, database.db)
    requires Consistent(ms, database.db.recorded) && Mine(before, database.db, runner, mine)
    requires forall tx | tx in txs :: tx.runner != runner && tx.migration in ms
    modifies database
    ensures OnceEach(database.db) && Grows(before, database.db) && Consistent(ms, database.db.recorded)
    ensures !result.Refused? && Mine(before, database.db, runner, mine + if result.Ran? then {m.name} else {})
    ensures m.name in database.db.recorded && forall x | x in old(database.db).recorded :: x in database.db.recorded
  {
    OthersKeep(ms, database.db, txs, runner);
    ghost var start := database.db;
    database.OthersRun(txs);
    hide AfterAll;
    ghost var ready := database.db;
    GrowsOn(before, start, ready);
    OthersAreNotMine(before, start, ready, runner, mine);
    OneTransaction(ready, Tx(runner, m));
    OneConsistent(ms, ready, Tx(runner, m));
    OneIsMine(before, ready, runner, mine, m);
    hide Mine, OnceEach, Consistent;
    StillRecorded(start, ready);
    result := database.RunTransaction(runner, m);
    GrowsOn(before, ready, database.db);
    StillRecorded(ready, database.db);
    hide Grows;
  }

  /**
   A run with the same migration set as all the others. It completes exactly when the database agreed with the
   files; then everything is recorded, and what it applied and what it skipped partition the migrations in
   order: applied are exactly the bodies this runner executed, and never one recorded before.
   */
  method RunPostgresMigrations(database: MigrationDatabase, runner: nat, ms: seq<SqlMigration>, others: nat -> seq<Tx>)
    returns (summary: Summary)
    requires DistinctNames(ms) && OnceEach(database.db)
    requires forall k: nat, tx | tx in others(k) :: tx.runner != runner && tx.migration in ms
    modifies database
    ensures summary.Completed? <==> Consistent(ms, old(database.db).recorded)
    ensures OnceEach(database.db) && Grows(old(database.db), database.db)
    ensures summary.Completed? ==>
              exists mine ::
                && Mine(old(database.db), database.db, runner, mine)
                && summary == Completed(Names(ms, mine, true), Names(ms, mine, false))
                && forall m | m in ms :: m.name in database.db.recorded
  {
    hide Consistent, OnceEach, Grows, Mine, DistinctNames, Names, AfterAll, ExecutedBy, Agrees, Recorded;
    ghost var before := database.db;
    var plan := ReadPlan(database, runner, ms, others(0));
    if !plan.Planned? {
      return PlanFailed(plan);
    }
    ghost var mine: set<Id> := {};
    NothingMine(before, runner);
    OthersAreNotMine(before, before, database.db, runner, mine);
    var applied: seq<Id>, skipped: seq<Id> := [], [];
    EmptyNames(mine);
    assert ms[..0] == [];
    for i := 0 to |plan.entries|
      invariant OnceEach(database.db) && Grows(before, database.db) && Consistent(ms, database.db.recorded)
      invariant Mine(before, database.db, runner, mine)
      invariant applied == Names(ms[..i], mine, true) && skipped == Names(ms[..i], mine, false)
      invariant forall k | i <= k < |ms| :: ms[k].name !in mine
      invariant forall k | 0 <= k < |ms| && (k < i || !plan.entries[k].apply) :: ms[k].name in database.db.recorded
    {
      var m := plan.entries[i].migration;
      NamesDiffer(ms, i);
      var ran := false;
      if plan.entries[i].apply {
        var result := ApplyEntry(database, runner, ms, m, others(i + 1), before, mine);
        if result.Refused? {
          return TransactionFailed(m.name);
        }
        ran := result.Ran?;
      }
      ListsStep(ms, i, mine, ran, true);
      ListsStep(ms, i, mine, ran, false);
      assert mine + {} == mine;
      mine := mine + if ran then {m.name} else {};
      if ran {
        applied := applied + [m.name];
      } else {
        skipped := skipped + [m.name];
      }
    }
    assert ms[..|ms|] == ms;
    summary := Completed(applied, skipped);
  }

  /** Reading the applied rows, while others work, decides whether this run goes ahead. */
  method ReadPlan(database: MigrationDatabase, runner: nat, ms: seq<SqlMigration>, txs: seq<Tx>) returns (plan: Plan)
    requires DistinctNames(ms) && OnceEach(database.db)
    requires forall tx | tx in txs :: tx.runner != runner && tx.migration in ms
    modifies database
    ensures plan.Planned? <==> Consistent(ms, old(database.db).recorded)
    ensures plan.Planned? ==>
              && Consistent(ms, database.db.recorded) && |plan.entries| == |ms|
              && forall k | 0 <= k < |ms| ::
                   && plan.entries[k].migration == ms[k]
                   && (!plan.entries[k].apply ==> ms[k].name in database.db.recorded)
    ensures OnceEach(database.db) && Grows(old(database.db), database.db)
    ensures forall k | |old(database.db).log| <= k < |database.db.log| :: database.db.log[k].runner != runner
  {
    OthersKeep(ms, database.db, txs, runner);
    hide AfterAll, Grows, OnceEach, DistinctNames, Consistent, Agrees;
    database.OthersRun(txs);
    var rows := database.ReadApplied();
    ReadingAgrees(ms, database.db.recorded, rows);
    plan := BuildMigrationPlan(ms, rows);
  }

  lemma NothingMine(db: Database, runner: nat)
    ensures Mine(db, db, runner, {})
  {
  }

  lemma EmptyNames(mine: set<Id>)
    ensures Names([], mine, true) == [] && Names([], mine, false) == []
  {
  }

  lemma NamesDiffer(ms: seq<SqlMigration>, i: nat)
    requires DistinctNames(ms) && i < |ms|
    ensures forall k | 0 <= k < |ms| && k != i :: ms[k].name != ms[i].name
  {
  }

  lemma StillRecorded(db: Database, n: Database)
    requires Grows(db, n)
    ensures forall x | x in db.recorded :: x in n.recorded
  {
  }

  /** Applied and skipped names partition the migrations, each list in migration order. */
  lemma {:induction false} ListsPartition(ms: seq<SqlMigration>, mine: set<Id>)
    requires DistinctNames(ms)
    ensures |Names(ms, mine, true)| + |Names(ms, mine, false)| == |ms|
    ensures forall m | m in ms ::
              m.name in Names(ms, mine, m.name in mine) && m.name !in Names(ms, mine, m.name !in mine)
  {
    if ms != [] {
      var last := ms[|ms| - 1];
      ListsPartition(ms[..|ms| - 1], mine);
      NamesChosen(ms, mine, true);
      NamesChosen(ms, mine, false);
      assert ms == ms[..|ms| - 1] + [last];
    }
  }

  lemma {:induction false} NamesChosen(ms: seq<SqlMigration>, mine: set<Id>, keep: bool)
    ensures forall x | x in Names(ms, mine, keep) :: (x in mine) == keep
  {
    if ms != [] {
      NamesChosen(ms[..|ms| - 1], mine, keep);
    }
  }

  /** A run that starts when everything is recorded applies nothing and skips everything. */
  method RunAgain(database: MigrationDatabase, runner: nat, ms: seq<SqlMigration>, others: nat -> seq<Tx>)
    returns (summary: Summary)
    requires DistinctNames(ms) && OnceEach(database.db) && Consistent(ms, database.db.recorded)
    requires forall m | m in ms :: m.name in database.db.recorded
    requires forall k: nat, tx | tx in others(k) :: tx.runner != runner && tx.migration in ms
    modifies database
    ensures summary == Completed([], Names(ms, {}, false)) && |summary.skipped| == |ms|
  {
    ghost var before := database.db;
    summary := RunPostgresMigrations(database, runner, ms, others);
    ghost var mine :| Mine(before, database.db, runner, mine)
                      && summary == Completed(Names(ms, mine, true), Names(ms, mine, false));
    NoneChosen(ms, mine);
    AllLeft(ms, mine);
    ListsPartition(ms, {});
    NoneChosen(ms, {});
  }

  lemma {:induction false} AllLeft(ms: seq<SqlMigration>, chosen: set<Id>)
    requires forall m | m in ms :: m.name !in chosen
    ensures Names(ms, chosen, false) == Names(ms, {}, false)
  {
    if ms != [] {
      assert ms[|ms| - 1] in ms;
      AllLeft(ms[..|ms| - 1], chosen);
    }
  }
}
