/** The migration runner shared by the orders and reviews services
    (service_orders/src/database/migrate.js, service_reviews/src/database/migrate.js):
    make sure the bookkeeping table exists, read the names already applied, and
    run the remaining declared migrations in order, recording each one after it
    succeeds. The database is its set of table names and the rows of the
    bookkeeping table; a connection-level failure is a fault every query meets. */
module Migrations {
  import opened Json

  /** PostgreSQL SQLSTATE codes (Appendix A of the PostgreSQL manual). */
  const DuplicateTable: string := "42P07"
  const UndefinedTable: string := "42P01"
  const UniqueViolation: string := "23505"

  /** A declared migration: its name and the table its `up` creates. */
  datatype Migration = Migration(name: string, table: string)

  /** `queryInterface.createTable(name, ...)`: Sequelize's PostgreSQL dialect
      issues `CREATE TABLE IF NOT EXISTS`, so a table already there is left as
      it is; only a failing connection makes the call reject. */
  function CreateTable(tables: set<string>, name: string, outage: Option<Fault>): (r: Result<set<string>>)
    ensures outage.None? && name !in tables ==> r == Ok(tables + {name})
    ensures outage.None? && name in tables ==> r == Ok(tables)
    ensures outage.Some? ==> r == Err(outage.value)
  {
    if outage.Some? then Err(outage.value)
    else if name in tables then Ok(tables)
    else Ok(tables + {name})
  }

  /** `error.original?.code` */
  function CodeOf(f: Fault): Option<string>
  {
    if f.Database? then f.code else None
  }

  /** `ensureMigrationsTable`: a failure whose code is exactly 42P07 is swallowed. */
  function EnsureTable(tables: set<string>, table: string, outage: Option<Fault>): (r: Result<set<string>>)
    ensures r.Ok? ==> r.value == tables + {table}
    ensures outage.None? ==> r == Ok(tables + {table})
    ensures outage.Some? ==> (r.Ok? <==> CodeOf(outage.value) == Some(DuplicateTable))
    ensures r.Err? ==> r == Err(outage.value)
  {
    match CreateTable(tables, table, outage)
    case Ok(t) => Ok(t)
    case Err(f) => if CodeOf(f) == Some(DuplicateTable) then Ok(tables + {table}) else Err(f)
  }

  /** `SELECT name FROM "<table>"` */
  function SelectNames(tables: set<string>, rows: seq<string>, table: string, outage: Option<Fault>): Result<seq<string>>
  {
    if outage.Some? then Err(outage.value)
    else if table !in tables then Err(Database(Some(UndefinedTable)))
    else Ok(rows)
  }

  /** `getAppliedMigrations`: a missing table (42P01) reads as no names applied. */
  function GetApplied(tables: set<string>, rows: seq<string>, table: string, outage: Option<Fault>): (r: Result<seq<string>>)
    ensures outage.None? && table in tables ==> r == Ok(rows)
    ensures outage.None? && table !in tables ==> r == Ok([])
    ensures outage.Some? ==> (r.Ok? <==> CodeOf(outage.value) == Some(UndefinedTable))
    ensures r.Ok? ==> r.value == rows || r.value == []
  {
    match SelectNames(tables, rows, table, outage)
    case Ok(names) => Ok(names)
    case Err(f) => if CodeOf(f) == Some(UndefinedTable) then Ok([]) else Err(f)
  }

  /** `setMigrationDone`: one row per name, the name being the primary key. */
  function InsertDone(tables: set<string>, rows: seq<string>, table: string, name: string, outage: Option<Fault>): (r: Result<seq<string>>)
    ensures r.Ok? <==> outage.None? && table in tables && name !in rows
    ensures r.Ok? ==> r.value == rows + [name]
  {
    if outage.Some? then Err(outage.value)
    else if table !in tables then Err(Database(Some(UndefinedTable)))
    else if name in rows then Err(Database(Some(UniqueViolation)))
    else Ok(rows + [name])
  }

  function Names(ms: seq<Migration>): (r: seq<string>)
    ensures |r| == |ms| && forall i :: 0 <= i < |ms| ==> r[i] == ms[i].name
  {
    seq(|ms|, i requires 0 <= i < |ms| => ms[i].name)
  }

  /** `migrations.filter((m) => !done.includes(m.name))` */
  function Pending(migrations: seq<Migration>, done: seq<string>): (r: seq<Migration>)
    ensures IsSubsequence(r, migrations)
    ensures forall m :: m in r <==> m in migrations && m.name !in done
    decreases |migrations|
  {
    if |migrations| == 0 then []
    else if migrations[0].name !in done then [migrations[0]] + Pending(migrations[1..], done)
    else Pending(migrations[1..], done)
  }

  /** Once every declared name is applied, nothing is pending. */
  lemma {:induction false} NothingPendingWhenAllApplied(migrations: seq<Migration>, done: seq<string>)
    requires forall i :: 0 <= i < |migrations| ==> migrations[i].name in done
    ensures Pending(migrations, done) == []
    decreases |migrations|
  {
    if |migrations| > 0 {
      assert forall i :: 0 <= i < |migrations[1..]| ==> migrations[1..][i] == migrations[i + 1];
      NothingPendingWhenAllApplied(migrations[1..], done);
    }
  }

  /** The database as the loop leaves it, the migrations whose `up` completed,
      and how `migrate()` settles. */
  datatype Run = Run(tables: set<string>, rows: seq<string>, ran: seq<string>, result: Result<()>)

  /** The `for` loop over `pending`: `up`, then record; the first failure stops it. */
  function RunAll(tables: set<string>, rows: seq<string>, table: string, pending: seq<Migration>, outage: Option<Fault>): Run
    decreases |pending|
  {
    if |pending| == 0 then Run(tables, rows, [], Ok(()))
    else
      var m := pending[0];
      match CreateTable(tables, m.table, outage)
      case Err(f) => Run(tables, rows, [], Err(f))
      case Ok(t) =>
        match InsertDone(t, rows, table, m.name, outage)
        case Err(f) => Run(t, rows, [m.name], Err(f))
        case Ok(rows') =>
          var rest := RunAll(t, rows', table, pending[1..], outage);
          Run(rest.tables, rest.rows, [m.name] + rest.ran, rest.result)
  }

  lemma NamesCons(p: seq<Migration>, k: nat)
    requires 0 < |p| && k < |p|
    ensures Names(p[..k + 1]) == [p[0].name] + Names(p[1..][..k])
  {
    assert p[1..][..k] == p[1..k + 1];
  }

  /** The migrations whose `up` completed are a prefix of `pending`, all of it on success. */
  lemma {:induction false} RunAllRan(tables: set<string>, rows: seq<string>, table: string, pending: seq<Migration>, outage: Option<Fault>)
    ensures var r := RunAll(tables, rows, table, pending, outage);
            && |r.ran| <= |pending|
            && r.ran == Names(pending[..|r.ran|])
            && (r.result.Ok? ==> |r.ran| == |pending|)
    decreases |pending|
  {
    if |pending| > 0 {
      var m := pending[0];
      var t := CreateTable(tables, m.table, outage);
      if t.Ok? {
        var ins := InsertDone(t.value, rows, table, m.name, outage);
        if ins.Ok? {
          RunAllRan(t.value, ins.value, table, pending[1..], outage);
          var rest := RunAll(t.value, ins.value, table, pending[1..], outage);
          NamesCons(pending, |rest.ran|);
        } else {
          assert pending[..1] == [m];
        }
      }
    }
  }

  /** The rows added are the names of a prefix of `pending`: every migration
      that ran except possibly the last, whose recording failed; all of
      `pending` exactly on success. */
  lemma {:induction false} RunAllRows(tables: set<string>, rows: seq<string>, table: string, pending: seq<Migration>, outage: Option<Fault>)
    ensures var r := RunAll(tables, rows, table, pending, outage);
            var k := |r.rows| - |rows|;
            && 0 <= k <= |pending|
            && r.rows == rows + Names(pending[..k])
            && k <= |r.ran| <= k + 1
            && (r.result.Ok? <==> k == |pending|)
    decreases |pending|
  {
    if |pending| > 0 {
      var m := pending[0];
      var t := CreateTable(tables, m.table, outage);
      if t.Ok? {
        var ins := InsertDone(t.value, rows, table, m.name, outage);
        if ins.Ok? {
          var rows' := ins.value;
          RunAllRows(t.value, rows', table, pending[1..], outage);
          var rest := RunAll(t.value, rows', table, pending[1..], outage);
          var k' := |rest.rows| - |rows'|;
          NamesCons(pending, k');
          assert rest.rows == rows + ([m.name] + Names(pending[1..][..k']));
        } else {
          assert pending[..0] == [];
        }
      } else {
        assert pending[..0] == [];
      }
    } else {
      assert pending[..0] == [];
    }
  }

  /** The two facts above together. */
  lemma RunAllShape(tables: set<string>, rows: seq<string>, table: string, pending: seq<Migration>, outage: Option<Fault>)
    ensures var r := RunAll(tables, rows, table, pending, outage);
            && |r.ran| <= |pending| && r.ran == Names(pending[..|r.ran|])
            && |rows| <= |r.rows| <= |rows| + |pending|
            && r.rows == rows + Names(pending[..|r.rows| - |rows|])
            && (r.result.Ok? <==> |r.rows| - |rows| == |pending|)
            && (r.result.Ok? ==> r.ran == Names(pending) && r.rows == rows + Names(pending))
  {
    RunAllRan(tables, rows, table, pending, outage);
    RunAllRows(tables, rows, table, pending, outage);
    assert pending[..|pending|] == pending;
  }

  /** `migrate()` */
  function MigrateSpec(tables: set<string>, rows: seq<string>, table: string, migrations: seq<Migration>, outage: Option<Fault>): Run
  {
    match EnsureTable(tables, table, outage)
    case Err(f) => Run(tables, rows, [], Err(f))
    case Ok(t) =>
      match GetApplied(t, rows, table, outage)
      case Err(f) => Run(t, rows, [], Err(f))
      case Ok(done) => RunAll(t, rows, table, Pending(migrations, done), outage)
  }

  /** After `ensureMigrationsTable` succeeds with a working connection the
      bookkeeping table exists, so the 42P01 branch of `getAppliedMigrations`
      is not taken. */
  lemma AppliedReadAfterEnsure(tables: set<string>, rows: seq<string>, table: string)
    ensures var t := EnsureTable(tables, table, None);
            t.Ok? && GetApplied(t.value, rows, table, None) == Ok(rows)
  {
  }

  /** Only declared, not yet applied migrations run, in declared order. */
  lemma {:induction false} OnlyPendingRun(tables: set<string>, rows: seq<string>, table: string, migrations: seq<Migration>)
    ensures var r := MigrateSpec(tables, rows, table, migrations, None);
            var pending := Pending(migrations, rows);
            && |r.ran| <= |pending|
            && r.ran == Names(pending[..|r.ran|])
            && IsSubsequence(pending, migrations)
            && (forall m :: m in pending ==> m.name !in rows)
  {
    RunsOverPending(tables, rows, table, migrations);
    RunAllShape(tables + {table}, rows, table, Pending(migrations, rows), None);
  }

  /** With a working connection `migrate()` is the loop over the names not yet recorded. */
  lemma RunsOverPending(tables: set<string>, rows: seq<string>, table: string, migrations: seq<Migration>)
    ensures MigrateSpec(tables, rows, table, migrations, None)
              == RunAll(tables + {table}, rows, table, Pending(migrations, rows), None)
  {
  }

  /** Recording the pending names leaves no declared name unrecorded. */
  lemma AllRecorded(migrations: seq<Migration>, rows: seq<string>, after: seq<string>)
    requires after == rows + Names(Pending(migrations, rows))
    ensures forall i :: 0 <= i < |migrations| ==> migrations[i].name in after
  {
    var pending := Pending(migrations, rows);
    forall i | 0 <= i < |migrations|
      ensures migrations[i].name in after
    {
      var m := migrations[i];
      if m.name !in rows {
        assert m in pending;
        var j :| 0 <= j < |pending| && pending[j] == m;
        assert after[|rows| + j] == m.name;
      }
    }
  }

  /** A successful run records every declared name, so a second run runs
      nothing and changes nothing. */
  lemma SecondRunIsNoOp(tables: set<string>, rows: seq<string>, table: string, migrations: seq<Migration>)
    requires MigrateSpec(tables, rows, table, migrations, None).result.Ok?
    ensures var first := MigrateSpec(tables, rows, table, migrations, None);
            MigrateSpec(first.tables, first.rows, table, migrations, None) == Run(first.tables, first.rows, [], Ok(()))
  {
    var first := MigrateSpec(tables, rows, table, migrations, None);
    var pending := Pending(migrations, rows);
    RunsOverPending(tables, rows, table, migrations);
    assert first == RunAll(tables + {table}, rows, table, pending, None);
    RunAllShape(tables + {table}, rows, table, pending, None);
    assert first.rows == rows + Names(pending);
    AllRecorded(migrations, rows, first.rows);
    NothingPendingWhenAllApplied(migrations, first.rows);
    RunAllKeepsTables(tables + {table}, rows, table, pending, None);
    assert first.tables + {table} == first.tables;
    RunsOverPending(first.tables, first.rows, table, migrations);
    assert RunAll(first.tables, first.rows, table, [], None) == Run(first.tables, first.rows, [], Ok(()));
  }

  lemma {:induction false} RunAllKeepsTables(tables: set<string>, rows: seq<string>, table: string, pending: seq<Migration>, outage: Option<Fault>)
    ensures tables <= RunAll(tables, rows, table, pending, outage).tables
    decreases |pending|
  {
    if |pending| > 0 {
      var m := pending[0];
      var t := CreateTable(tables, m.table, outage);
      if t.Ok? {
        var ins := InsertDone(t.value, rows, table, m.name, outage);
        if ins.Ok? {
          RunAllKeepsTables(t.value, ins.value, table, pending[1..], outage);
        }
      }
    }
  }

  /** A migration whose `up` rejects is not recorded, nothing after it runs,
      and the rejection is what `migrate()` settles with. */
  lemma {:induction false} FailureStopsTheRun(tables: set<string>, rows: seq<string>, table: string, pending: seq<Migration>, f: Fault)
    requires |pending| > 0
    ensures RunAll(tables, rows, table, pending, Some(f)) == Run(tables, rows, [], Err(f))
  {
  }

  /** A name declared twice: the second `up` runs (its table is already there),
      but recording it violates the primary key, so the run stops with 23505
      after two `up`s and one recorded name. */
  lemma {:induction false} DuplicateNameStopsTheRun(tables: set<string>, rows: seq<string>, table: string, m: Migration, rest: seq<Migration>)
    requires table in tables && m.name !in rows
    ensures RunAll(tables, rows, table, [m, m] + rest, None)
            == Run(tables + {m.table}, rows + [m.name], [m.name, m.name], Err(Database(Some(UniqueViolation))))
  {
    var p := [m, m] + rest;
    assert p[1..] == [m] + rest;
    assert p[1..][0] == m;
  }

  /** `r` preceded by the `ups` that completed before it. */
  function After(ups: seq<string>, r: Run): Run
  {
    Run(r.tables, r.rows, ups + r.ran, r.result)
  }

  lemma AfterAssociates(a: seq<string>, b: seq<string>, r: Run)
    ensures After(a, After(b, r)) == After(a + b, r)
  {
  }

  lemma AfterAppends(a: seq<string>, b: seq<string>, tables: set<string>, rows: seq<string>, f: Fault)
    ensures After(a, Run(tables, rows, b, Err(f))) == Run(tables, rows, a + b, Err(f))
  {
  }

  lemma StepCreateFails(tables: set<string>, rows: seq<string>, table: string, pending: seq<Migration>, outage: Option<Fault>)
    requires |pending| > 0 && CreateTable(tables, pending[0].table, outage).Err?
    ensures RunAll(tables, rows, table, pending, outage) == Run(tables, rows, [], Err(CreateTable(tables, pending[0].table, outage).fault))
  {
  }

  lemma StepInsertFails(tables: set<string>, rows: seq<string>, table: string, pending: seq<Migration>, outage: Option<Fault>)
    requires |pending| > 0 && CreateTable(tables, pending[0].table, outage).Ok?
    requires InsertDone(CreateTable(tables, pending[0].table, outage).value, rows, table, pending[0].name, outage).Err?
    ensures var t := CreateTable(tables, pending[0].table, outage).value;
            RunAll(tables, rows, table, pending, outage) == Run(t, rows, [pending[0].name], Err(InsertDone(t, rows, table, pending[0].name, outage).fault))
  {
  }

  lemma StepContinues(tables: set<string>, rows: seq<string>, table: string, pending: seq<Migration>, outage: Option<Fault>)
    requires |pending| > 0 && CreateTable(tables, pending[0].table, outage).Ok?
    requires InsertDone(CreateTable(tables, pending[0].table, outage).value, rows, table, pending[0].name, outage).Ok?
    ensures var t := CreateTable(tables, pending[0].table, outage).value;
            var rows' := InsertDone(t, rows, table, pending[0].name, outage).value;
            RunAll(tables, rows, table, pending, outage) == After([pending[0].name], RunAll(t, rows', table, pending[1..], outage))
  {
  }

  // ---------------------------------------------------------------------------
  // The runner, with the database it works on.

  class Runner {
    var tables: set<string>
    var rows: seq<string>
    var ran: seq<string>
    const table: string
    const migrations: seq<Migration>
    const outage: Option<Fault>

    constructor (table: string, migrations: seq<Migration>, tables: set<string>, rows: seq<string>, outage: Option<Fault>)
      ensures this.table == table && this.migrations == migrations && this.outage == outage
      ensures this.tables == tables && this.rows == rows && ran == []
    {
      this.table := table;
      this.migrations := migrations;
      this.outage := outage;
      this.tables := tables;
      this.rows := rows;
      ran := [];
    }

    /** `migrate()`: `ran` logs the migrations whose `up` completed. */
    method Migrate() returns (result: Result<()>)
      modifies this
      ensures var r := MigrateSpec(old(tables), old(rows), table, migrations, outage);
              tables == r.tables && rows == r.rows && ran == old(ran) + r.ran && result == r.result
    {
      var ensured := EnsureTable(tables, table, outage);
      if ensured.Err? {
        assert ran + [] == ran;
        return Err(ensured.fault);
      }
      tables := ensured.value;
      var done := GetApplied(tables, rows, table, outage);
      if done.Err? {
        assert ran + [] == ran;
        return Err(done.fault);
      }
      result := RunPending(Pending(migrations, done.value));
    }

    /** The `for` loop of `migrate()` over the pending migrations. */
    method RunPending(pending: seq<Migration>) returns (result: Result<()>)
      modifies this
      ensures var r := RunAll(old(tables), old(rows), table, pending, outage);
              tables == r.tables && rows == r.rows && ran == old(ran) + r.ran && result == r.result
    {
      ghost var whole := RunAll(tables, rows, table, pending, outage);
      ghost var log0 := ran;
      ghost var ups: seq<string> := [];
      var i := 0;
      while i < |pending|
        invariant 0 <= i <= |pending|
        invariant ran == log0 + ups
        invariant whole == After(ups, RunAll(tables, rows, table, pending[i..], outage))
      {
        var m := pending[i];
        var created := CreateTable(tables, m.table, outage);
        if created.Err? {
          StepCreateFails(tables, rows, table, pending[i..], outage);
          return Err(created.fault);
        }
        ghost var t1 := tables;
        tables := created.value;
        ran := ran + [m.name];
        var recorded := InsertDone(tables, rows, table, m.name, outage);
        if recorded.Err? {
          StepInsertFails(t1, rows, table, pending[i..], outage);
          AfterAppends(ups, [m.name], tables, rows, recorded.fault);
          return Err(recorded.fault);
        }
        StepContinues(t1, rows, table, pending[i..], outage);
        assert pending[i..][1..] == pending[i + 1..];
        rows := recorded.value;
        AfterAssociates(ups, [m.name], RunAll(tables, rows, table, pending[i + 1..], outage));
        ups := ups + [m.name];
        i := i + 1;
      }
      result := Ok(());
    }
  }

  // ---------------------------------------------------------------------------
  // The two services' declarations.

  const OrdersMigrationsTable: string := "_migrations_orders"
  const OrdersMigrations: seq<Migration> := [Migration("001-create-orders", "Orders")]

  const ReviewsMigrationsTable: string := "_migrations_reviews"
  const ReviewsMigrations: seq<Migration> := [Migration("001-create-reviews", "Reviews")]

  /** On an empty database the orders runner creates both tables and records
      its one migration; run again, it does nothing. */
  lemma OrdersFromScratch()
    ensures var r := MigrateSpec({}, [], OrdersMigrationsTable, OrdersMigrations, None);
            r == Run({"_migrations_orders", "Orders"}, ["001-create-orders"], ["001-create-orders"], Ok(()))
    ensures MigrateSpec({"_migrations_orders", "Orders"}, ["001-create-orders"], OrdersMigrationsTable, OrdersMigrations, None)
              == Run({"_migrations_orders", "Orders"}, ["001-create-orders"], [], Ok(()))
  {
    assert Pending(OrdersMigrations, []) == OrdersMigrations;
    assert Pending(OrdersMigrations, ["001-create-orders"]) == [];
  }

  /** Likewise for the reviews runner. */
  lemma ReviewsFromScratch()
    ensures var r := MigrateSpec({}, [], ReviewsMigrationsTable, ReviewsMigrations, None);
            r == Run({"_migrations_reviews", "Reviews"}, ["001-create-reviews"], ["001-create-reviews"], Ok(()))
    ensures MigrateSpec({"_migrations_reviews", "Reviews"}, ["001-create-reviews"], ReviewsMigrationsTable, ReviewsMigrations, None)
              == Run({"_migrations_reviews", "Reviews"}, ["001-create-reviews"], [], Ok(()))
  {
    assert Pending(ReviewsMigrations, []) == ReviewsMigrations;
    assert Pending(ReviewsMigrations, ["001-create-reviews"]) == [];
  }

  /** A "Reviews" table created outside the runner is left as it is: the run
      still completes, runs the migration as a no-op and records its name. */
  lemma ReviewsTableCreatedElsewhere()
    ensures var r := MigrateSpec({"Reviews"}, [], ReviewsMigrationsTable, ReviewsMigrations, None);
            r == Run({"Reviews", "_migrations_reviews"}, ["001-create-reviews"], ["001-create-reviews"], Ok(()))
  {
    assert Pending(ReviewsMigrations, []) == ReviewsMigrations;
  }
}
