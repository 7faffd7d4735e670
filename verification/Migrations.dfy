/** Migration transactions, the apply/skip plan, and runners that work on one database at the same time. */
module Migrations {
  import opened Texts
  import opened SqlText

  datatype SqlMigration = SqlMigration(name: Id, sql: Text, checksum: Text)

  /******* The text of a transaction *******/

  predicate IsWhite(c: Unit) {
    9 <= c <= 13 || c == 32 || c == 160 || c == 0x1680 || 0x2000 <= c <= 0x200A || c == 0x2028 || c == 0x2029
    || c == 0x202F || c == 0x205F || c == 0x3000 || c == 0xFEFF
  }

  /** The white space and line terminators of ECMAScript, which `trim` removes. */
  const WHITE: set<int> := {
    9, 10, 11, 12, 13, 32, 160, 0x1680, 0x2000, 0x2001, 0x2002, 0x2003, 0x2004, 0x2005, 0x2006, 0x2007, 0x2008, 0x2009,
    0x200A, 0x2028, 0x2029, 0x202F, 0x205F, 0x3000, 0xFEFF}

  lemma WhiteExactly(c: Unit)
    ensures IsWhite(c) <==> c in WHITE
  {
  }

  function Trim(t: Text): Text {
    if t != [] && IsWhite(t[0]) then Trim(t[1..])
    else if t != [] && IsWhite(t[|t| - 1]) then Trim(t[..|t| - 1])
    else t
  }

  const NEWLINE: Text := [10]

  function Terminated(sql: Text): Text {
    if EndsWith(sql, [SEMICOLON]) then sql else sql + [SEMICOLON]
  }

  function AppliedMarker(name: Id): Text {
    Ascii("roboops_migration_applied:") + name
  }

  const TABLE: Text := Ascii("fleet_persistence.schema_migrations")
  const INSERT: Text := Ascii("INSERT INTO ") + TABLE + Ascii(" (migration_name, checksum_sha256)") + Ascii(" VALUES (")
  const ON_CONFLICT: Text := Ascii(")") + Ascii(" ON CONFLICT (migration_name) DO NOTHING;")
  const SELECT: Text := Ascii("SELECT ")
  const COMMA: Text := Ascii(", ")

  /** The migration, the row that records it, and the marker that tells the runner it was applied here. */
  function MigrationRecord(m: SqlMigration): Text {
    Terminated(Trim(m.sql)) + NEWLINE
    + INSERT + SqlStringLiteral(m.name) + COMMA + SqlStringLiteral(m.checksum) + ON_CONFLICT + NEWLINE
    + SELECT + SqlStringLiteral(AppliedMarker(m.name)) + [SEMICOLON]
  }

  const GUARD_OPENS: Text := Ascii("DO $roboops_checksum_guard$") + NEWLINE + Ascii("BEGIN") + NEWLINE
  const GUARD_IF: Text := Ascii("  IF EXISTS (") + NEWLINE + Ascii("    SELECT 1 FROM ") + TABLE + NEWLINE
  const GUARD_NAME: Text := Ascii("    WHERE migration_name = ")
  const GUARD_CHECKSUM: Text := NEWLINE + Ascii("      AND checksum_sha256 <> ")
  const GUARD_RAISES: Text := NEWLINE + Ascii("  ) THEN") + NEWLINE + Ascii("    RAISE EXCEPTION ")
  const GUARD_CLOSES: Text := Ascii(";") + NEWLINE + Ascii("  END IF;") + NEWLINE + Ascii("END") + NEWLINE
                              + Ascii("$roboops_checksum_guard$;")
  const CHANGED: Text := Ascii("Migration checksum changed for ")
  const CREATE_NEW: Text := Ascii("; create a new migration instead")

  function ChecksumGuard(m: SqlMigration): Text {
    GUARD_OPENS + GUARD_IF + GUARD_NAME + SqlStringLiteral(m.name) + GUARD_CHECKSUM + SqlStringLiteral(m.checksum)
    + GUARD_RAISES + SqlStringLiteral(CHANGED + m.name + CREATE_NEW) + GUARD_CLOSES
  }

  const BEGIN: Text := Ascii("BEGIN;") + NEWLINE
  const LOCK_OPENS: Text := Ascii("SELECT pg_advisory_xact_lock(hashtext(")
  const LOCK_NAME: Text := Ascii("roboops_fleet_persistence_migrations")
  const LOCK_CLOSES: Text := Ascii("));") + NEWLINE
  const WHERE_ABSENT: Text := Ascii(" WHERE NOT EXISTS (   SELECT 1 FROM ") + TABLE
                              + Ascii("   WHERE migration_name = ")
  const EXECUTE_AND_COMMIT: Text := Ascii(" )") + NEWLINE + Ascii("\\gexec") + NEWLINE + Ascii("COMMIT;") + NEWLINE

  function TransactionHead(m: SqlMigration): Text {
    BEGIN + LOCK_OPENS + SqlStringLiteral(LOCK_NAME) + LOCK_CLOSES + ChecksumGuard(m) + NEWLINE + SELECT
  }

  function TransactionTail(m: SqlMigration): Text {
    WHERE_ABSENT + SqlStringLiteral(m.name) + EXECUTE_AND_COMMIT
  }

  /******* How PostgreSQL reads it *******/

  /** The text between leading and trailing white space. */
  ghost predicate TrimmedTo(text: Text, body: Text) {
    exists i, j | 0 <= i <= j <= |text| :: IsTrim(text, i, j) && body == text[i..j]
  }

  predicate IsTrim(text: Text, i: nat, j: nat)
    requires i <= j <= |text|
  {
    && (forall k | 0 <= k < i :: text[k] in WHITE) && (forall k | j <= k < |text| :: text[k] in WHITE)
    && (i < j ==> text[i] !in WHITE && text[j - 1] !in WHITE)
  }

  lemma {:induction false} TrimExact(text: Text)
    ensures TrimmedTo(text, Trim(text))
    decreases |text|
  {
    hide IsWhite;
    if text != [] {
      WhiteExactly(text[0]);
      WhiteExactly(text[|text| - 1]);
    }
    if text != [] && IsWhite(text[0]) {
      TrimExact(text[1..]);
      TrimmedFront(text, Trim(text));
    } else if text != [] && IsWhite(text[|text| - 1]) {
      TrimExact(text[..|text| - 1]);
      TrimmedBack(text, Trim(text));
    } else {
      assert text == text[0..|text|] && IsTrim(text, 0, |text|);
    }
  }

  lemma TrimmedFront(text: Text, body: Text)
    requires text != [] && text[0] in WHITE && TrimmedTo(text[1..], body)
    ensures TrimmedTo(text, body)
  {
    var i, j :| 0 <= i <= j <= |text[1..]| && IsTrim(text[1..], i, j) && body == text[1..][i..j];
    assert forall k | 1 <= k < |text| :: text[k] == text[1..][k - 1];
    assert text[1..][i..j] == text[i + 1..j + 1] && IsTrim(text, i + 1, j + 1);
  }

  lemma TrimmedBack(text: Text, body: Text)
    requires text != [] && text[|text| - 1] in WHITE && TrimmedTo(text[..|text| - 1], body)
    ensures TrimmedTo(text, body)
  {
    var front := text[..|text| - 1];
    var i, j :| 0 <= i <= j <= |front| && IsTrim(front, i, j) && body == front[i..j];
    assert forall k | 0 <= k < |front| :: text[k] == front[k];
    assert front[i..j] == text[i..j] && IsTrim(text, i, j);
  }

  const THE_TABLE: Text := Ascii("fleet_persistence.schema_migrations")
  const TAKES_LOCK: Text := Ascii("BEGIN;") + [10] + Ascii("SELECT pg_advisory_xact_lock(hashtext(")
  const THE_LOCK: Text := Ascii("roboops_fleet_persistence_migrations")
  const IF_ROW: Text := Ascii("  IF EXISTS (") + [10] + Ascii("    SELECT 1 FROM ") + THE_TABLE + [10]
  const GUARDS: Text := Ascii("));") + [10] + Ascii("DO $roboops_checksum_guard$") + [10] + Ascii("BEGIN") + [10]
                        + IF_ROW + Ascii("    WHERE migration_name = ")
  const WITH_OTHER_CHECKSUM: Text := [10] + Ascii("      AND checksum_sha256 <> ")
  const RAISES: Text := [10] + Ascii("  ) THEN") + [10] + Ascii("    RAISE EXCEPTION ")
  const HAS_CHANGED: Text := Ascii("Migration checksum changed for ")
  const MAKE_NEW: Text := Ascii("; create a new migration instead")
  const GUARDED: Text := Ascii(";") + [10] + Ascii("  END IF;") + [10] + Ascii("END") + [10]
                         + Ascii("$roboops_checksum_guard$;") + [10] + Ascii("SELECT ")
  const INSERTS: Text := Ascii("INSERT INTO ") + THE_TABLE + Ascii(" (migration_name, checksum_sha256)")
                         + Ascii(" VALUES (")
  const UNLESS_THERE: Text := Ascii(")") + Ascii(" ON CONFLICT (migration_name) DO NOTHING;") + [10] + Ascii("SELECT ")
  const APPLIED: Text := Ascii("roboops_migration_applied:")
  const IF_ABSENT: Text := Ascii(" WHERE NOT EXISTS (   SELECT 1 FROM ") + THE_TABLE
                           + Ascii("   WHERE migration_name = ")
  const COMMITS: Text := Ascii(" )") + [10] + Ascii("\\gexec") + [10] + Ascii("COMMIT;") + [10]

  /** The lock, the guard against a changed checksum, and the beginning of the conditional execution. */
  function HeadScript(m: SqlMigration): Script {
    Plain(TAKES_LOCK, Literal(THE_LOCK, Plain(GUARDS, Literal(m.name, Plain(WITH_OTHER_CHECKSUM,
      Literal(m.checksum, Plain(RAISES, Literal(HAS_CHANGED + m.name + MAKE_NEW, Plain(GUARDED, End)))))))))
  }

  function StatementOf(body: Text): Text {
    if body != [] && body[|body| - 1] == SEMICOLON then body else body + [SEMICOLON]
  }

  /** What is executed: the migration itself, the row that records it, and the marker. */
  function RecordScript(m: SqlMigration, body: Text): Script {
    Plain(StatementOf(body) + [10] + INSERTS, Literal(m.name, Plain(COMMA, Literal(m.checksum, Plain(UNLESS_THERE,
      Literal(APPLIED + m.name, Plain([SEMICOLON], End)))))))
  }

  /** The condition of the execution, and the end. */
  function TailScript(m: SqlMigration): Script {
    Plain(IF_ABSENT, Literal(m.name, Plain(COMMITS, End)))
  }

  lemma Shift(x: Text, y: Text, z: Text)
    ensures (x + y) + z == x + (y + z)
  {
  }

  /** Right-nested sums from left-nested ones. */
  lemma Shift4(a: Text, b: Text, c: Text, d: Text, z: Text)
    ensures (a + b + c + d) + z == a + (b + (c + (d + z)))
  {
    Shift(a + b + c, d, z);
    Shift(a + b, c, d + z);
    Shift(a, b, c + (d + z));
  }

  lemma TailRenders(m: SqlMigration)
    ensures Rendered(TailScript(m)) == TransactionTail(m) && Separated(TailScript(m), [])
  {
    hide SqlStringLiteral;
    assert COMMITS[0] == 32;
    LiteralRenders(m.name, COMMITS, End, []);
    PlainRenders(IF_ABSENT, Literal(m.name, Plain(COMMITS, End)), []);
    Shift(IF_ABSENT, SqlStringLiteral(m.name), COMMITS);
  }

  /** No fixed part behind a literal begins with an apostrophe. */
  lemma FixedParts()
    ensures UNLESS_THERE[0] == 41 && COMMA[0] == 44 && GUARDED[0] == 59 && GUARDS[0] == 41
    ensures RAISES[0] == 10 && WITH_OTHER_CHECKSUM[0] == 10
  {
    assert Ascii(")")[0] == 41 && Ascii(", ")[0] == 44 && Ascii(";")[0] == 59 && Ascii("));")[0] == 41;
  }

  lemma RecordRenders(m: SqlMigration)
    ensures Rendered(RecordScript(m, Trim(m.sql))) == MigrationRecord(m)
    ensures Separated(RecordScript(m, Trim(m.sql)), [])
  {
    hide SqlStringLiteral, Trim;
    var n, c := SqlStringLiteral(m.name), SqlStringLiteral(m.checksum);
    var x := SqlStringLiteral(AppliedMarker(m.name));
    FixedParts();
    LiteralRenders(APPLIED + m.name, [SEMICOLON], End, []);
    var marked := Literal(APPLIED + m.name, Plain([SEMICOLON], End));
    LiteralRenders(m.checksum, UNLESS_THERE, marked, []);
    var summed := Literal(m.checksum, Plain(UNLESS_THERE, marked));
    LiteralRenders(m.name, COMMA, summed, []);
    var named := Literal(m.name, Plain(COMMA, summed));
    var first := StatementOf(Trim(m.sql)) + [10] + INSERTS;
    PlainRenders(first, named, []);
    hide Rendered, Separated;
    Shift(ON_CONFLICT + NEWLINE, SELECT, x + [SEMICOLON]);
    RecordSums(Terminated(Trim(m.sql)) + NEWLINE + INSERT, n, c, x);
  }

  lemma RecordSums(first: Text, n: Text, c: Text, x: Text)
    ensures first + n + COMMA + c + ON_CONFLICT + NEWLINE + SELECT + x + [SEMICOLON]
         == first + (n + (COMMA + (c + (UNLESS_THERE + (x + [SEMICOLON])))))
  {
    var z := x + [SEMICOLON];
    Shift(first + n + COMMA + c + ON_CONFLICT + NEWLINE + SELECT, x, [SEMICOLON]);
    Shift4(first + n + COMMA + c, ON_CONFLICT, NEWLINE, SELECT, z);
    Shift(ON_CONFLICT + NEWLINE, SELECT, z);
    Shift(ON_CONFLICT, NEWLINE, SELECT + z);
    Shift4(first, n, COMMA, c, UNLESS_THERE + z);
  }

  lemma HeadRenders(m: SqlMigration, rest: Text)
    ensures Rendered(HeadScript(m)) == TransactionHead(m) && Separated(HeadScript(m), rest)
  {
    hide SqlStringLiteral;
    var l, n, c := SqlStringLiteral(THE_LOCK), SqlStringLiteral(m.name), SqlStringLiteral(m.checksum);
    var changed := HAS_CHANGED + m.name + MAKE_NEW;
    FixedParts();
    LiteralRenders(changed, GUARDED, End, rest);
    var s1 := Literal(changed, Plain(GUARDED, End));
    LiteralRenders(m.checksum, RAISES, s1, rest);
    var s2 := Literal(m.checksum, Plain(RAISES, s1));
    LiteralRenders(m.name, WITH_OTHER_CHECKSUM, s2, rest);
    var s3 := Literal(m.name, Plain(WITH_OTHER_CHECKSUM, s2));
    LiteralRenders(THE_LOCK, GUARDS, s3, rest);
    var s4 := Literal(THE_LOCK, Plain(GUARDS, s3));
    PlainRenders(TAKES_LOCK, s4, rest);
    hide Rendered, Separated;
    HeadSums(l, n, c, SqlStringLiteral(changed));
  }

  lemma HeadSums(l: Text, n: Text, c: Text, x: Text)
    ensures BEGIN + LOCK_OPENS + l + LOCK_CLOSES
            + (GUARD_OPENS + GUARD_IF + GUARD_NAME + n + GUARD_CHECKSUM + c + GUARD_RAISES + x + GUARD_CLOSES)
            + NEWLINE + SELECT
         == TAKES_LOCK + (l + (GUARDS + (n + (WITH_OTHER_CHECKSUM + (c + (RAISES + (x + GUARDED)))))))
  {
    var guard := GUARD_OPENS + GUARD_IF + GUARD_NAME + n + GUARD_CHECKSUM + c + GUARD_RAISES + x + GUARD_CLOSES;
    var z := NEWLINE + SELECT;
    var head := BEGIN + LOCK_OPENS + l + LOCK_CLOSES;
    Shift(head + guard, NEWLINE, SELECT);
    Shift(head, guard, z);
    var tail := n + (GUARD_CHECKSUM + (c + (GUARD_RAISES + (x + (GUARD_CLOSES + z)))));
    Shift4(GUARD_OPENS + GUARD_IF + GUARD_NAME + n + GUARD_CHECKSUM, c, GUARD_RAISES, x, GUARD_CLOSES);
    GuardSums(n, c, x, z);
    Shift4(BEGIN, LOCK_OPENS, l, LOCK_CLOSES, GUARD_OPENS + (GUARD_IF + (GUARD_NAME + tail)));
    GuardsSum(tail);
    GuardedSum();
    Shift(BEGIN, LOCK_OPENS, l + (GUARDS + tail));
  }

  lemma GuardSums(n: Text, c: Text, x: Text, z: Text)
    ensures (GUARD_OPENS + GUARD_IF + GUARD_NAME + n + GUARD_CHECKSUM + c + GUARD_RAISES + x + GUARD_CLOSES) + z
         == GUARD_OPENS + (GUARD_IF + (GUARD_NAME
            + (n + (GUARD_CHECKSUM + (c + (GUARD_RAISES + (x + (GUARD_CLOSES + z))))))))
  {
    var last := GUARD_CLOSES + z;
    var front := GUARD_OPENS + GUARD_IF + GUARD_NAME + n;
    Shift(front + GUARD_CHECKSUM + c + GUARD_RAISES + x, GUARD_CLOSES, z);
    Shift4(front + GUARD_CHECKSUM, c, GUARD_RAISES, x, []);
    Shift4(front, GUARD_CHECKSUM, c, GUARD_RAISES, x + last);
    Shift(front + GUARD_CHECKSUM + c + GUARD_RAISES, x, last);
    Shift4(GUARD_OPENS, GUARD_IF, GUARD_NAME, n, GUARD_CHECKSUM + (c + (GUARD_RAISES + (x + last))));
  }

  lemma GuardsSum(tail: Text)
    ensures LOCK_CLOSES + (GUARD_OPENS + (GUARD_IF + (GUARD_NAME + tail))) == GUARDS + tail
  {
    Shift(LOCK_CLOSES + GUARD_OPENS + GUARD_IF, GUARD_NAME, tail);
    Shift(LOCK_CLOSES + GUARD_OPENS, GUARD_IF, GUARD_NAME + tail);
    Shift(LOCK_CLOSES, GUARD_OPENS, GUARD_IF + (GUARD_NAME + tail));
    assert LOCK_CLOSES + GUARD_OPENS + GUARD_IF + GUARD_NAME == GUARDS;
  }

  lemma GuardedSum()
    ensures GUARD_CLOSES + (NEWLINE + SELECT) == GUARDED
  {
    Shift(GUARD_CLOSES, NEWLINE, SELECT);
  }

  /**
   Read from its beginning, the transaction takes the lock, refuses a changed checksum of this migration, and
   executes, unless a row with this name is there, exactly the following: the migration's own trimmed text as a
   statement, the insertion of a row with its name and checksum, and the output of its marker.
   */
  ghost predicate IsTransaction(m: SqlMigration, text: Text) {
    match ReadScript(text, HeadScript(m))
    case None => false
    case Some(quoted) =>
      match ReadDollarQuoted(quoted)
      case None => false
      case Some((record, tail)) =>
        && ReadScript(tail, TailScript(m)) == Some([])
        && exists body :: TrimmedTo(m.sql, body) && ReadScript(record, RecordScript(m, body)) == Some([])
  }

  lemma PartsRead(m: SqlMigration, quoted: Text)
    ensures ReadScript(TransactionHead(m) + quoted, HeadScript(m)) == Some(quoted)
    ensures ReadScript(MigrationRecord(m), RecordScript(m, Trim(m.sql))) == Some([])
    ensures ReadScript(TransactionTail(m), TailScript(m)) == Some([])
  {
    hide SqlStringLiteral, Trim, ReadScript, TransactionHead, TransactionTail, MigrationRecord, HeadScript;
    hide RecordScript;
    HeadRenders(m, quoted);
    RecordRenders(m);
    TailRenders(m);
    hide TailScript;
    ReadsRendered(HeadScript(m), quoted);
    ReadsRendered(RecordScript(m, Trim(m.sql)), []);
    ReadsRendered(TailScript(m), []);
    assert MigrationRecord(m) + [] == MigrationRecord(m) && TransactionTail(m) + [] == TransactionTail(m);
  }

  method FormatMigrationTransaction(m: SqlMigration) returns (text: Text)
    ensures IsTransaction(m, text)
  {
    var head, record, tail := TransactionHead(m), MigrationRecord(m), TransactionTail(m);
    RecordEnds(m);
    hide TransactionHead, TransactionTail, MigrationRecord, IsTransaction, Delimiter, ReadDollarQuoted, EndsWith;
    var quoted, tagIndex := SqlDollarQuote(record);
    StatementRoundTrip(record, tagIndex, tail);
    text := head + quoted + tail;
    Assembled(m, quoted, text);
  }

  lemma Assembled(m: SqlMigration, quoted: Text, text: Text)
    requires ReadDollarQuoted(quoted + TransactionTail(m)) == Some((MigrationRecord(m), TransactionTail(m)))
    requires text == TransactionHead(m) + quoted + TransactionTail(m)
    ensures IsTransaction(m, text)
  {
    hide TransactionHead, TransactionTail, MigrationRecord, HeadScript, RecordScript, TailScript, TrimmedTo, Trim;
    hide ReadDollarQuoted, ReadScript;
    var rest := quoted + TransactionTail(m);
    PartsRead(m, rest);
    TrimExact(m.sql);
    assert text == TransactionHead(m) + rest;
  }

  lemma RecordEnds(m: SqlMigration)
    ensures EndsWith(MigrationRecord(m), [SEMICOLON])
  {
    hide Terminated, SqlStringLiteral, AppliedMarker;
  }
  /******* The plan *******/

  datatype AppliedRow = AppliedRow(name: Id, checksum: Text)

  datatype PlanEntry = PlanEntry(migration: SqlMigration, apply: bool)

  datatype Plan =
    | Planned(entries: seq<PlanEntry>)
    | UnknownMigration(name: Id)
    | DuplicateRow(name: Id)
    | ChecksumChanged(name: Id)

  predicate HasName(ms: seq<SqlMigration>, name: Id) {
    exists m :: m in ms && m.name == name
  }

  /** Every recorded row is a known migration, recorded once. */
  predicate RowsKnown(ms: seq<SqlMigration>, rows: seq<AppliedRow>) {
    && (forall r | r in rows :: HasName(ms, r.name))
    && (forall i, j | 0 <= i < j < |rows| :: rows[i].name != rows[j].name)
  }

  /** And it has the checksum the migration has now. */
  predicate Agrees(ms: seq<SqlMigration>, rows: seq<AppliedRow>) {
    RowsKnown(ms, rows) && forall m, r | m in ms && r in rows && m.name == r.name :: m.checksum == r.checksum
  }

  ghost predicate ByName(rows: seq<AppliedRow>, byName: map<Id, AppliedRow>) {
    && (forall r | r in rows :: r.name in byName && byName[r.name] == r)
    && (forall n | n in byName :: byName[n] in rows && byName[n].name == n)
  }

  method IndexApplied(ms: seq<SqlMigration>, rows: seq<AppliedRow>)
    returns (failure: Option<Plan>, appliedByName: map<Id, AppliedRow>)
    ensures failure.None? <==> RowsKnown(ms, rows)
    ensures failure.Some? ==> !failure.value.Planned?
    ensures failure.None? ==> ByName(rows, appliedByName)
  {
    hide HasName;
    appliedByName := map[];
    for i := 0 to |rows|
      invariant ByName(rows[..i], appliedByName)
      invariant RowsKnown(ms, rows[..i])
    {
      assert rows[..i + 1] == rows[..i] + [rows[i]];
      assert rows[i] in rows;
      if !HasName(ms, rows[i].name) {
        return Some(UnknownMigration(rows[i].name)), map[];
      }
      if rows[i].name in appliedByName {
        assert appliedByName[rows[i].name] in rows[..i];
        return Some(DuplicateRow(rows[i].name)), map[];
      }
      appliedByName := appliedByName[rows[i].name := rows[i]];
    }
    assert rows[..|rows|] == rows;
    failure := None;
  }

  predicate Recorded(rows: seq<AppliedRow>, name: Id) {
    exists r :: r in rows && r.name == name
  }

  /** Fails exactly when the database disagrees with the files; otherwise skips what is recorded. */
  method BuildMigrationPlan(ms: seq<SqlMigration>, rows: seq<AppliedRow>) returns (plan: Plan)
    ensures plan.Planned? <==> Agrees(ms, rows)
    ensures plan.Planned? ==>
              && |plan.entries| == |ms|
              && forall i | 0 <= i < |ms| :: plan.entries[i] == PlanEntry(ms[i], !Recorded(rows, ms[i].name))
  {
    var failure, appliedByName := IndexApplied(ms, rows);
    if failure.Some? {
      return failure.value;
    }
    hide RowsKnown;
    var entries: seq<PlanEntry> := [];
    for i := 0 to |ms|
      invariant |entries| == i
      invariant forall k | 0 <= k < i :: entries[k] == PlanEntry(ms[k], !Recorded(rows, ms[k].name))
      invariant forall k, r | 0 <= k < i && r in rows && ms[k].name == r.name :: ms[k].checksum == r.checksum
    {
      if ms[i].name in appliedByName && appliedByName[ms[i].name].checksum != ms[i].checksum {
        return ChecksumChanged(ms[i].name);
      }
      assert Recorded(rows, ms[i].name) <==> ms[i].name in appliedByName;
      entries := entries + [PlanEntry(ms[i], ms[i].name !in appliedByName)];
    }
    plan := Planned(entries);
  }
}
