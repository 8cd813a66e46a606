/**
 * The schema migrator (backend/src/services/migrations.js) over a
 * schema-level model of the SQLite file: each table is its ordered column
 * names (what `PRAGMA table_info` reports) and its rows; indexes sit in a map
 * by name; `schema_version` is a separate optional list of version rows.
 *
 * Every statement is a function returning either the new schema or a Halt
 * that carries the schema as it was before that statement (SQLite statements
 * are atomic); a `:-` chain then models the try block of `migrateToV1`, and
 * its catch keeps whatever the statements before the failing one did. The
 * class Connection runs the same statements one by one, as the source does.
 */
module Migrations {
  import opened Wrappers

  datatype Value = Null | Integer(i: int) | Text(s: string)

  type Row = map<string, Value>

  datatype Table = Table(columns: seq<string>, rows: seq<Row>)

  /** An index over one column; `nonNullOnly` is a `WHERE column IS NOT NULL` clause. */
  datatype Index = Index(table: string, column: string, unique: bool, nonNullOnly: bool)

  /** The database file: tables, indexes, and the rows of `schema_version` when that table exists. */
  datatype Schema = Schema(tables: map<string, Table>, indexes: map<string, Index>, versions: Option<seq<int>>)

  datatype SqlError =
    | TableExists(name: string)
    | NoSuchTable(name: string)
    | DuplicateColumn(table: string, column: string)
    | NoSuchColumn(table: string, column: string)
    | UniqueViolation(index: string)

  /** A failed statement: its error, and the schema as it stood before it ran. */
  datatype Halt = Halt(at: Schema, error: SqlError)

  type Exec = Result<Schema, Halt>

  /** The schema after an execution, whether it ran to the end or stopped at an error. */
  function Final(r: Exec): Schema
  {
    match r
    case Success(s) => s
    case Failure(h) => h.at
  }

  const EmptySchema := Schema(map[], map[], None)

  const Users := "users"
  const Nfts := "nfts"
  const Sessions := "sessions"
  const UsersBackup := "users_backup"
  const NftsBackup := "nfts_backup"
  const Id := "id"
  const FarcasterFid := "farcaster_fid"
  const Platform := "platform"
  const OwnerUserId := "owner_user_id"
  const FarcasterIndex := "idx_users_farcaster_unique"
  const FarcasterIndexDef := Index(Users, FarcasterFid, true, true)
  const DefaultPlatform := Text("telegram")

  // ------------------------------------------------------------ statements

  /** `PRAGMA table_info(name)`: the column names, none when the table is absent. */
  function TableInfo(s: Schema, name: string): (cols: seq<string>)
    ensures name !in s.tables ==> cols == []
    ensures name in s.tables ==> cols == s.tables[name].columns
  {
    if name in s.tables then s.tables[name].columns else []
  }

  /** `CREATE TABLE dst AS SELECT * FROM src`: fails when `dst` exists or `src` does not. */
  function CreateTableAs(s: Schema, dst: string, src: string): (r: Exec)
    ensures r.Success? <==> dst !in s.tables && src in s.tables
    ensures r.Failure? ==> r.error.at == s
    ensures r.Success? ==>
              && r.value.tables.Keys == s.tables.Keys + {dst}
              && r.value.tables[dst] == s.tables[src]
              && (forall t :: t in s.tables ==> r.value.tables[t] == s.tables[t])
              && r.value.indexes == s.indexes && r.value.versions == s.versions
  {
    if dst in s.tables then Failure(Halt(s, TableExists(dst)))
    else if src !in s.tables then Failure(Halt(s, NoSuchTable(src)))
    else Success(s.(tables := s.tables[dst := s.tables[src]]))
  }

  /** `DROP TABLE [IF EXISTS] name`: the table goes, and with it every index on it. */
  function DropTable(s: Schema, name: string, ifExists: bool): (r: Exec)
    ensures r.Failure? <==> name !in s.tables && !ifExists
    ensures r.Failure? ==> r.error.at == s
    ensures r.Success? ==>
              && r.value.tables.Keys == s.tables.Keys - {name}
              && (forall t :: t in r.value.tables ==> r.value.tables[t] == s.tables[t])
              && (forall k :: k in r.value.indexes <==> k in s.indexes && (name in s.tables ==> s.indexes[k].table != name))
              && (forall k :: k in r.value.indexes ==> r.value.indexes[k] == s.indexes[k])
              && r.value.versions == s.versions
  {
    if name !in s.tables then (if ifExists then Success(s) else Failure(Halt(s, NoSuchTable(name))))
    else Success(Schema(s.tables - {name},
                        map k | k in s.indexes && s.indexes[k].table != name :: s.indexes[k],
                        s.versions))
  }

  /** Every row with one more cell. */
  function WithCell(rows: seq<Row>, column: string, v: Value): (r: seq<Row>)
    ensures |r| == |rows|
    ensures forall i :: 0 <= i < |rows| ==> r[i] == rows[i][column := v]
  {
    seq(|rows|, i requires 0 <= i < |rows| => rows[i][column := v])
  }

  /** `ALTER TABLE table ADD COLUMN column ... DEFAULT v`: the column is appended and existing rows read `v` in it. */
  function AddColumn(s: Schema, table: string, column: string, v: Value): (r: Exec)
    ensures r.Success? <==> table in s.tables && column !in s.tables[table].columns
    ensures r.Failure? ==> r.error.at == s
    ensures r.Success? ==>
              var old_ := s.tables[table];
              && r.value.tables.Keys == s.tables.Keys
              && (forall t :: t in s.tables && t != table ==> r.value.tables[t] == s.tables[t])
              && r.value.tables[table].columns == old_.columns + [column]
              && |r.value.tables[table].rows| == |old_.rows|
              && (forall i :: 0 <= i < |old_.rows| ==>
                    && column in r.value.tables[table].rows[i] && r.value.tables[table].rows[i][column] == v
                    && forall c :: c in old_.rows[i] && c != column ==>
                         c in r.value.tables[table].rows[i] && r.value.tables[table].rows[i][c] == old_.rows[i][c])
              && r.value.indexes == s.indexes && r.value.versions == s.versions
  {
    if table !in s.tables then Failure(Halt(s, NoSuchTable(table)))
    else
      var t := s.tables[table];
      if column in t.columns then Failure(Halt(s, DuplicateColumn(table, column)))
      else Success(s.(tables := s.tables[table := Table(t.columns + [column], WithCell(t.rows, column, v))]))
  }

  /** The value a row holds in a column; a row without the cell reads NULL. */
  function Cell(row: Row, column: string): Value
  {
    if column in row then row[column] else Null
  }

  /** Two rows hold the same non-NULL value in the column. */
  predicate HasDuplicate(rows: seq<Row>, column: string)
  {
    exists i, j :: 0 <= i < j < |rows| && Cell(rows[i], column) != Null && Cell(rows[i], column) == Cell(rows[j], column)
  }

  /** `CREATE [UNIQUE] INDEX IF NOT EXISTS name ON table(column) [WHERE column IS NOT NULL]` */
  function CreateIndexIfNotExists(s: Schema, name: string, idx: Index): (r: Exec)
    ensures r.Failure? ==> r.error.at == s
    ensures name in s.indexes ==> r == Success(s)
    ensures name !in s.indexes ==>
              (r.Success? <==>
                 && idx.table in s.tables && idx.column in s.tables[idx.table].columns
                 && !(idx.unique && HasDuplicate(s.tables[idx.table].rows, idx.column)))
    ensures r.Success? ==>
              && r.value.tables == s.tables && r.value.versions == s.versions
              && name in r.value.indexes
              && (name !in s.indexes ==> r.value.indexes == s.indexes[name := idx])
  {
    if name in s.indexes then Success(s)
    else if idx.table !in s.tables then Failure(Halt(s, NoSuchTable(idx.table)))
    else if idx.column !in s.tables[idx.table].columns then Failure(Halt(s, NoSuchColumn(idx.table, idx.column)))
    else if idx.unique && HasDuplicate(s.tables[idx.table].rows, idx.column) then Failure(Halt(s, UniqueViolation(name)))
    else Success(s.(indexes := s.indexes[name := idx]))
  }

  /** A column that was just added with NULL everywhere has no duplicate non-NULL values. */
  lemma FreshNullColumnHasNoDuplicate(rows: seq<Row>, column: string)
    ensures !HasDuplicate(WithCell(rows, column, Null), column)
  {
    var r := WithCell(rows, column, Null);
    forall i | 0 <= i < |r| ensures Cell(r[i], column) == Null {
      assert r[i] == rows[i][column := Null];
    }
  }

  // ------------------------------------------------------- migrateToV1

  /**
   * The legacy branch: both backups, then both drops. It creates no table
   * besides the two backups, and when it runs through, `users` and `nfts`
   * are gone and their copies sit under the backup names.
   */
  function LegacyBranch(s: Schema): (r: Exec)
    ensures Final(r).versions == s.versions
    ensures Final(r).tables.Keys <= s.tables.Keys + {UsersBackup, NftsBackup}
    ensures r.Success? ==>
              && Users in s.tables && Nfts in s.tables
              && Users !in r.value.tables && Nfts !in r.value.tables
              && UsersBackup in r.value.tables && r.value.tables[UsersBackup] == s.tables[Users]
              && NftsBackup in r.value.tables && r.value.tables[NftsBackup] == s.tables[Nfts]
  {
    var s1 :- CreateTableAs(s, UsersBackup, Users);
    var s2 :- CreateTableAs(s1, NftsBackup, Nfts);
    // Without foreign keys (not modelled), DROP TABLE IF EXISTS cannot fail.
    var s3 := DropTable(s2, Nfts, true).value;
    DropTable(s3, Users, true)
  }

  /** `farcaster_fid` and its unique index over the non-NULL values; no table but `users` changes. */
  function AddFarcasterFid(s: Schema): (r: Exec)
    ensures Final(r).versions == s.versions
    ensures Final(r).tables.Keys == s.tables.Keys
    ensures forall t :: t in s.tables && t != Users ==> Final(r).tables[t] == s.tables[t]
  {
    var s1 :- AddColumn(s, Users, FarcasterFid, Null);
    CreateIndexIfNotExists(s1, FarcasterIndex, FarcasterIndexDef)
  }

  /**
   * The `nfts` check of the partial branch. Whatever it does, only `nfts`
   * can disappear, and only with a copy left in `nfts_backup`; every other
   * table, and every index not on `nfts`, stays.
   */
  function NftsStep(s: Schema): (r: Exec)
    ensures Final(r).versions == s.versions
    ensures Final(r).tables.Keys <= s.tables.Keys + {NftsBackup}
    ensures forall t :: t in s.tables && t != Nfts ==> t in Final(r).tables && Final(r).tables[t] == s.tables[t]
    ensures Nfts in s.tables && Nfts !in Final(r).tables ==>
              NftsBackup in Final(r).tables && Final(r).tables[NftsBackup] == s.tables[Nfts]
    ensures forall k :: k in s.indexes && s.indexes[k].table != Nfts ==>
              k in Final(r).indexes && Final(r).indexes[k] == s.indexes[k]
  {
    var info := TableInfo(s, Nfts);
    if OwnerUserId !in info then
      var s1 :- CreateTableAs(s, NftsBackup, Nfts);
      DropTable(s1, Nfts, false)
    else if Platform !in info then AddColumn(s, Nfts, Platform, DefaultPlatform)
    else Success(s)
  }

  /** The `users` statements of the partial branch: no table appears, disappears, or changes except `users`. */
  function UsersSteps(s: Schema, hasFid: bool, hasPlatform: bool): (r: Exec)
    ensures Final(r).versions == s.versions
    ensures Final(r).tables.Keys == s.tables.Keys
    ensures forall t :: t in s.tables && t != Users ==> Final(r).tables[t] == s.tables[t]
  {
    var s1 :- if hasFid then Success(s) else AddFarcasterFid(s);
    if hasPlatform then Success(s1) else AddColumn(s1, Users, Platform, DefaultPlatform)
  }

  /**
   * The partial branch: the missing user columns, then the `nfts` check. At
   * most `nfts_backup` appears, and no table but `users` and `nfts` changes.
   */
  function PartialBranch(s: Schema, hasFid: bool, hasPlatform: bool): (r: Exec)
    ensures Final(r).versions == s.versions
    ensures Final(r).tables.Keys <= s.tables.Keys + {NftsBackup}
    ensures forall t :: t in s.tables && t != Users && t != Nfts ==>
              t in Final(r).tables && Final(r).tables[t] == s.tables[t]
  {
    var s2 :- UsersSteps(s, hasFid, hasPlatform);
    NftsStep(s2)
  }

  /** The try block of `migrateToV1`, branching on the columns of `users`; it creates no table but the two backups. */
  function MigrateSteps(s: Schema): (r: Exec)
    ensures Final(r).versions == s.versions
    ensures Final(r).tables.Keys <= s.tables.Keys + {UsersBackup, NftsBackup}
  {
    var info := TableInfo(s, Users);
    if |info| == 0 then Success(s)
    else if Id !in info then LegacyBranch(s)
    else if FarcasterFid !in info || Platform !in info then PartialBranch(s, FarcasterFid in info, Platform in info)
    else Success(s)
  }

  /** `migrateToV1`: any error is caught, and what ran before it stays. */
  function AfterMigrateToV1(s: Schema): (r: Schema)
    ensures r.versions == s.versions
  {
    Final(MigrateSteps(s))
  }

  // ----------------------------------------------------- schema_version

  /** `CREATE TABLE IF NOT EXISTS schema_version` */
  function EnsureVersionTable(s: Schema): (r: Schema)
    ensures r.versions.Some? && r.tables == s.tables && r.indexes == s.indexes
    ensures s.versions.Some? ==> r == s
    ensures s.versions.None? ==> r.versions == Some([])
  {
    if s.versions.None? then s.(versions := Some([])) else s
  }

  /** `SELECT version FROM schema_version LIMIT 1`: a stored version, or 0 when there is no row. */
  function StoredVersion(s: Schema): (v: int)
    ensures v == 0 || (s.versions.Some? && v in s.versions.value)
    ensures s.versions.None? || s.versions == Some([]) ==> v == 0
    ensures forall x :: s.versions == Some([x]) ==> v == x
  {
    if s.versions.Some? && |s.versions.value| > 0 then s.versions.value[0] else 0
  }

  /** `setDatabaseVersion`: DELETE every row, then INSERT the one given. */
  function VersionStamp(s: Schema, v: int): (r: Exec)
    ensures r.Success? <==> s.versions.Some?
    ensures r.Success? ==> r.value == s.(versions := Some([v]))
  {
    if s.versions.None? then Failure(Halt(s, NoSuchTable("schema_version")))
    else Success(s.(versions := Some([v])))
  }

  /**
   * `runMigrations`: read the version (creating its table), run
   * `migrateToV1` only below version 1, then stamp version 1 whatever the
   * migration did.
   */
  function AfterRunMigrations(s: Schema): (r: Schema)
    ensures r.versions == Some([1])
    ensures StoredVersion(EnsureVersionTable(s)) >= 1 ==> r.tables == s.tables && r.indexes == s.indexes
    ensures StoredVersion(EnsureVersionTable(s)) < 1 ==>
              var m := AfterMigrateToV1(EnsureVersionTable(s)); r.tables == m.tables && r.indexes == m.indexes
  {
    var s1 := EnsureVersionTable(s);
    var s2 := if StoredVersion(s1) < 1 then AfterMigrateToV1(s1) else s1;
    Final(VersionStamp(s2, 1))
  }

  // ------------------------------------------------------------- lemmas

  /** `getDatabaseVersion` yields 0 on a file without the table or without a row, and creates the table. */
  lemma VersionOfUnstampedFile(s: Schema)
    requires s.versions.None? || s.versions == Some([])
    ensures StoredVersion(EnsureVersionTable(s)) == 0
    ensures EnsureVersionTable(s).versions == Some([])
  {
  }

  /** A second run changes nothing: the first one stamped version 1, so `migrateToV1` is skipped. */
  lemma RunMigrationsIdempotent(s: Schema)
    ensures AfterRunMigrations(AfterRunMigrations(s)) == AfterRunMigrations(s)
  {
  }

  /** Without a `users` table nothing is created, altered or dropped. */
  lemma FreshFileUntouched(s: Schema)
    requires Users !in s.tables
    ensures AfterMigrateToV1(s) == s
  {
  }

  /** A `users` table with `id`, `farcaster_fid` and `platform` is left alone, and `nfts` is not even inspected. */
  lemma CurrentShapeUntouched(s: Schema)
    requires Users in s.tables
    requires var info := s.tables[Users].columns; Id in info && FarcasterFid in info && Platform in info
    ensures AfterMigrateToV1(s) == s
  {
  }

  /**
   * Whatever branch runs and wherever it stops, a table is dropped only when
   * it is `users` or `nfts` and a row-for-row copy of it sits under its
   * backup name. Which other tables stay unchanged is stated by
   * `LegacyBranchEffect` and `PartialKeepsOtherTables`.
   */
  lemma NoDropWithoutBackup(s: Schema, t: string)
    requires t in s.tables && t !in AfterMigrateToV1(s).tables
    ensures t == Users || t == Nfts
    ensures t == Users ==> UsersBackup in AfterMigrateToV1(s).tables && AfterMigrateToV1(s).tables[UsersBackup] == s.tables[Users]
    ensures t == Nfts ==> NftsBackup in AfterMigrateToV1(s).tables && AfterMigrateToV1(s).tables[NftsBackup] == s.tables[Nfts]
  {
    var info := TableInfo(s, Users);
    if Id !in info {
      if UsersBackup in s.tables {
        LegacyUsersBackupFails(s);
      } else if Nfts !in s.tables || NftsBackup in s.tables {
        LegacyNftsBackupFails(s);
      } else {
        LegacyBranchEffect(s);
      }
    } else {
      PartialKeepsOtherTables(s);
    }
  }

  /** `users` has columns but no `id`: `migrateToV1` takes the legacy branch. */
  ghost predicate LegacyShape(s: Schema)
  {
    Users in s.tables && |s.tables[Users].columns| > 0 && Id !in s.tables[Users].columns
  }

  /** Legacy branch with `users_backup` already there: the first backup fails and nothing changes. */
  lemma LegacyUsersBackupFails(s: Schema)
    requires LegacyShape(s) && UsersBackup in s.tables
    ensures AfterMigrateToV1(s) == s
  {
  }

  /**
   * Legacy branch whose second backup fails (no `nfts`, or `nfts_backup`
   * already there): `users_backup` stays behind and nothing is dropped.
   */
  lemma LegacyNftsBackupFails(s: Schema)
    requires LegacyShape(s) && UsersBackup !in s.tables && (Nfts !in s.tables || NftsBackup in s.tables)
    ensures AfterMigrateToV1(s) == s.(tables := s.tables[UsersBackup := s.tables[Users]])
  {
    assert MigrateSteps(s) == LegacyBranch(s);
  }

  /**
   * Legacy branch with both backups made: they are row-for-row copies of
   * `users` and `nfts`, which are then dropped with their indexes. Foreign
   * keys are not modelled, so the drop of `users` never fails here.
   */
  lemma LegacyBranchEffect(s: Schema)
    requires LegacyShape(s) && UsersBackup !in s.tables && Nfts in s.tables && NftsBackup !in s.tables
    ensures var r := AfterMigrateToV1(s);
            && r.tables == (s.tables - {Users, Nfts})[UsersBackup := s.tables[Users]][NftsBackup := s.tables[Nfts]]
            && (forall k :: k in r.indexes <==> k in s.indexes && s.indexes[k].table != Users && s.indexes[k].table != Nfts)
            && (forall k :: k in r.indexes ==> r.indexes[k] == s.indexes[k])
  {
    var s1 := CreateTableAs(s, UsersBackup, Users).value;
    var s2 := CreateTableAs(s1, NftsBackup, Nfts).value;
    var s3 := DropTable(s2, Nfts, true).value;
    var s4 := DropTable(s3, Users, true).value;
    assert MigrateSteps(s) == LegacyBranch(s);
    assert LegacyBranch(s) == Success(s4);
    assert s4.tables == (s.tables - {Users, Nfts})[UsersBackup := s.tables[Users]][NftsBackup := s.tables[Nfts]];
  }

  /** `farcaster_fid` and its index always go in on a `users` table without that column. */
  lemma AddFarcasterFidEffect(s: Schema)
    requires Users in s.tables && FarcasterFid !in s.tables[Users].columns
    ensures var r := AddFarcasterFid(s);
            && r.Success?
            && r.value.tables == AddColumn(s, Users, FarcasterFid, Null).value.tables
            && r.value.versions == s.versions
            && FarcasterIndex in r.value.indexes
            && (FarcasterIndex !in s.indexes ==> r.value.indexes[FarcasterIndex] == FarcasterIndexDef)
  {
    var s1 := AddColumn(s, Users, FarcasterFid, Null).value;
    FreshNullColumnHasNoDuplicate(s.tables[Users].rows, FarcasterFid);
    assert s1.tables[Users].rows == WithCell(s.tables[Users].rows, FarcasterFid, Null);
  }

  /**
   * The `users` statements of the partial branch cannot fail: exactly the
   * missing columns are appended, in source order; each existing row keeps
   * its old values and reads NULL in `farcaster_fid` and 'telegram' in
   * `platform`; a missing `farcaster_fid` comes with the unique index over
   * its non-NULL values; no other table changes.
   */
  lemma UsersStepsEffect(s: Schema, hasFid: bool, hasPlatform: bool)
    requires Users in s.tables
    requires hasFid <==> FarcasterFid in s.tables[Users].columns
    requires hasPlatform <==> Platform in s.tables[Users].columns
    ensures var r := UsersSteps(s, hasFid, hasPlatform);
            var info := s.tables[Users].columns;
            var added := (if hasFid then [] else [FarcasterFid]) + (if hasPlatform then [] else [Platform]);
            && r.Success?
            && r.value.tables.Keys == s.tables.Keys
            && (forall t :: t in s.tables && t != Users ==> r.value.tables[t] == s.tables[t])
            && r.value.tables[Users].columns == info + added
            && |r.value.tables[Users].rows| == |s.tables[Users].rows|
            && (forall i :: 0 <= i < |s.tables[Users].rows| ==>
                  var before, after := s.tables[Users].rows[i], r.value.tables[Users].rows[i];
                  && (forall c :: c in before && c !in added ==> c in after && after[c] == before[c])
                  && (!hasFid ==> FarcasterFid in after && after[FarcasterFid] == Null)
                  && (!hasPlatform ==> Platform in after && after[Platform] == DefaultPlatform))
            && (!hasFid && FarcasterIndex !in s.indexes ==>
                  FarcasterIndex in r.value.indexes && r.value.indexes[FarcasterIndex] == FarcasterIndexDef)
  {
    var info := s.tables[Users].columns;
    if !hasFid {
      AddFarcasterFidEffect(s);
      var s1 := AddFarcasterFid(s).value;
      if !hasPlatform {
        assert Platform !in s1.tables[Users].columns by {
          assert s1.tables[Users].columns == info + [FarcasterFid];
        }
        var s2 := AddColumn(s1, Users, Platform, DefaultPlatform).value;
        assert s2.tables[Users].columns == info + [FarcasterFid] + [Platform];
        assert [FarcasterFid] + [Platform] == [FarcasterFid, Platform];
      }
    }
  }

  /** The partial branch on `users` (see UsersStepsEffect), as `migrateToV1` leaves it. */
  lemma PartialUsersEffect(s: Schema)
    requires Users in s.tables
    requires var info := s.tables[Users].columns; Id in info && (FarcasterFid !in info || Platform !in info)
    ensures var info := s.tables[Users].columns;
            var r := AfterMigrateToV1(s);
            var added := (if FarcasterFid in info then [] else [FarcasterFid]) + (if Platform in info then [] else [Platform]);
            && Users in r.tables
            && r.tables[Users].columns == info + added
            && |r.tables[Users].rows| == |s.tables[Users].rows|
            && (forall i :: 0 <= i < |s.tables[Users].rows| ==>
                  var before, after := s.tables[Users].rows[i], r.tables[Users].rows[i];
                  && (forall c :: c in before && c !in added ==> c in after && after[c] == before[c])
                  && (FarcasterFid !in info ==> FarcasterFid in after && after[FarcasterFid] == Null)
                  && (Platform !in info ==> Platform in after && after[Platform] == DefaultPlatform))
            && (FarcasterFid !in info && FarcasterIndex !in s.indexes ==>
                  FarcasterIndex in r.indexes && r.indexes[FarcasterIndex] == FarcasterIndexDef)
  {
    var info := s.tables[Users].columns;
    var hasFid, hasPlatform := FarcasterFid in info, Platform in info;
    UsersStepsEffect(s, hasFid, hasPlatform);
    var s2 := UsersSteps(s, hasFid, hasPlatform).value;
    assert AfterMigrateToV1(s) == Final(NftsStep(s2));
    NftsStepKeepsUsers(s2);
  }

  /** The `nfts` step never touches `users` or the farcaster index. */
  lemma NftsStepKeepsUsers(s: Schema)
    requires Users in s.tables
    ensures var r := Final(NftsStep(s));
            && Users in r.tables && r.tables[Users] == s.tables[Users]
            && (FarcasterIndex in s.indexes && s.indexes[FarcasterIndex].table == Users ==>
                  FarcasterIndex in r.indexes && r.indexes[FarcasterIndex] == s.indexes[FarcasterIndex])
  {
  }

  /**
   * When `users` has `id`, no table other than `users` and `nfts` changes,
   * and `nfts` disappears only with its copy left in `nfts_backup`.
   */
  lemma PartialKeepsOtherTables(s: Schema)
    requires Users in s.tables && Id in s.tables[Users].columns
    ensures var r := AfterMigrateToV1(s);
            && (forall t :: t in s.tables && t != Users && t != Nfts ==> t in r.tables && r.tables[t] == s.tables[t])
            && (Nfts in s.tables && Nfts !in r.tables ==> NftsBackup in r.tables && r.tables[NftsBackup] == s.tables[Nfts])
  {
    var info := s.tables[Users].columns;
    var hasFid, hasPlatform := FarcasterFid in info, Platform in info;
    if !hasFid || !hasPlatform {
      UsersStepsEffect(s, hasFid, hasPlatform);
      var s2 := UsersSteps(s, hasFid, hasPlatform).value;
      assert AfterMigrateToV1(s) == Final(NftsStep(s2));
    }
  }

  /**
   * The `nfts` table in the partial branch: lacking `owner_user_id` it is
   * copied to `nfts_backup` and dropped (or, when the copy fails, left as it
   * was with no backup made); else lacking `platform` it gains `platform`
   * with 'telegram' in every existing row; otherwise it is untouched.
   */
  lemma PartialNftsEffect(s: Schema)
    requires Users in s.tables
    requires var info := s.tables[Users].columns; Id in info
    ensures var r := AfterMigrateToV1(s);
            var nftsInfo := TableInfo(s, Nfts);
            (var info := s.tables[Users].columns; FarcasterFid !in info || Platform !in info ==>
                  && (OwnerUserId !in nftsInfo && Nfts in s.tables && NftsBackup !in s.tables ==>
                        Nfts !in r.tables && NftsBackup in r.tables && r.tables[NftsBackup] == s.tables[Nfts])
                  && (OwnerUserId !in nftsInfo && (Nfts !in s.tables || NftsBackup in s.tables) ==>
                        r.tables.Keys == s.tables.Keys && (Nfts in s.tables ==> r.tables[Nfts] == s.tables[Nfts]))
                  && (OwnerUserId in nftsInfo && Platform !in nftsInfo ==>
                        && r.tables[Nfts].columns == nftsInfo + [Platform]
                        && |r.tables[Nfts].rows| == |s.tables[Nfts].rows|
                        && forall i :: 0 <= i < |s.tables[Nfts].rows| ==>
                             r.tables[Nfts].rows[i] == s.tables[Nfts].rows[i][Platform := DefaultPlatform])
                  && (OwnerUserId in nftsInfo && Platform in nftsInfo ==> r.tables[Nfts] == s.tables[Nfts]))
  {
    var info := s.tables[Users].columns;
    var hasFid, hasPlatform := FarcasterFid in info, Platform in info;
    if !hasFid || !hasPlatform {
      UsersStepsEffect(s, hasFid, hasPlatform);
      var s2 := UsersSteps(s, hasFid, hasPlatform).value;
      assert AfterMigrateToV1(s) == Final(NftsStep(s2));
    }
  }

  // ------------------------------------------------ createTables (legacy)

  const LegacyUsersColumns := ["telegram_id", "username", "wallet_address", "nfts_minted", "total_spent",
                               "last_mint_at", "created_at", "updated_at"]
  const LegacyNftsColumns := ["id", "token_id", "owner_telegram_id", "owner_wallet_address", "metadata_uri",
                              "transaction_hash", "block_number", "minted_at"]
  const LegacySessionsColumns := ["id", "telegram_id", "wallet_address", "data", "expires_at", "created_at"]

  /** `CREATE TABLE IF NOT EXISTS name (...)` */
  function CreateTableIfNotExists(s: Schema, name: string, columns: seq<string>): Schema
  {
    if name in s.tables then s else s.(tables := s.tables[name := Table(columns, [])])
  }

  /**
   * `createTables` in database.js: the three tables, each only when absent
   * and then empty with the legacy columns, then the four indexes, which
   * leave the tables alone.
   */
  function CreateTables(s: Schema): (r: Exec)
    ensures Final(r).tables.Keys == s.tables.Keys + {Users, Nfts, Sessions}
    ensures forall t :: t in s.tables ==> Final(r).tables[t] == s.tables[t]
    ensures Users !in s.tables ==> Final(r).tables[Users] == Table(LegacyUsersColumns, [])
    ensures Nfts !in s.tables ==> Final(r).tables[Nfts] == Table(LegacyNftsColumns, [])
    ensures Sessions !in s.tables ==> Final(r).tables[Sessions] == Table(LegacySessionsColumns, [])
  {
    var s1 := CreateTableIfNotExists(s, Users, LegacyUsersColumns);
    var s2 := CreateTableIfNotExists(s1, Nfts, LegacyNftsColumns);
    var s3 := CreateTableIfNotExists(s2, Sessions, LegacySessionsColumns);
    var s4 :- CreateIndexIfNotExists(s3, "idx_nfts_owner", Index(Nfts, "owner_telegram_id", false, false));
    CreateIndexChain(s4)
  }

  /** The last three indexes of `createTables`. */
  function CreateIndexChain(s4: Schema): (r: Exec)
    ensures Final(r).tables == s4.tables
  {
    var s5 :- CreateIndexIfNotExists(s4, "idx_nfts_token_id", Index(Nfts, "token_id", false, false));
    var s6 :- CreateIndexIfNotExists(s5, "idx_sessions_telegram_id", Index(Sessions, "telegram_id", false, false));
    CreateIndexIfNotExists(s6, "idx_sessions_expires", Index(Sessions, "expires_at", false, false))
  }

  /** What `createTables` leaves in a new file. */
  const LegacyTables := map[Users := Table(LegacyUsersColumns, []), Nfts := Table(LegacyNftsColumns, []),
                            Sessions := Table(LegacySessionsColumns, [])]
  const LegacyIndexes := map["idx_nfts_owner" := Index(Nfts, "owner_telegram_id", false, false),
                             "idx_nfts_token_id" := Index(Nfts, "token_id", false, false),
                             "idx_sessions_telegram_id" := Index(Sessions, "telegram_id", false, false),
                             "idx_sessions_expires" := Index(Sessions, "expires_at", false, false)]

  /** No column `createTables` gives `users` is called `id`. */
  lemma LegacyUsersLackId()
    ensures Id !in LegacyUsersColumns
  {
    assert forall c :: c in LegacyUsersColumns ==> |c| != |Id|;
  }

  /** On a new file `createTables` succeeds and builds the legacy tables and indexes. */
  lemma CreateTablesOnNewFile()
    ensures CreateTables(EmptySchema) == Success(Schema(LegacyTables, LegacyIndexes, None))
  {
    var s3 := Schema(LegacyTables, map[], None);
    assert CreateTableIfNotExists(CreateTableIfNotExists(CreateTableIfNotExists(EmptySchema, Users, LegacyUsersColumns),
                                                         Nfts, LegacyNftsColumns), Sessions, LegacySessionsColumns) == s3;
    var i1 := map["idx_nfts_owner" := Index(Nfts, "owner_telegram_id", false, false)];
    assert CreateIndexIfNotExists(s3, "idx_nfts_owner", Index(Nfts, "owner_telegram_id", false, false))
           == Success(s3.(indexes := i1));
    var i2 := i1["idx_nfts_token_id" := Index(Nfts, "token_id", false, false)];
    assert CreateIndexIfNotExists(s3.(indexes := i1), "idx_nfts_token_id", Index(Nfts, "token_id", false, false))
           == Success(s3.(indexes := i2));
    var i3 := i2["idx_sessions_telegram_id" := Index(Sessions, "telegram_id", false, false)];
    assert CreateIndexIfNotExists(s3.(indexes := i2), "idx_sessions_telegram_id", Index(Sessions, "telegram_id", false, false))
           == Success(s3.(indexes := i3));
    var i4 := i3["idx_sessions_expires" := Index(Sessions, "expires_at", false, false)];
    assert CreateIndexIfNotExists(s3.(indexes := i3), "idx_sessions_expires", Index(Sessions, "expires_at", false, false))
           == Success(s3.(indexes := i4));
    assert i4 == LegacyIndexes;
  }

  /**
   * A file holding just `users` (without `id`), `nfts` and `sessions`
   * migrates to `sessions` plus the two backups (foreign keys not modelled).
   */
  lemma MigrateThreeLegacyTables(tu: Table, tn: Table, ts: Table, idx: map<string, Index>)
    requires |tu.columns| > 0 && Id !in tu.columns
    ensures var m := AfterMigrateToV1(Schema(map[Users := tu, Nfts := tn, Sessions := ts], idx, None));
            && m.tables.Keys == {Sessions, UsersBackup, NftsBackup}
            && m.tables[Sessions] == ts && m.tables[UsersBackup] == tu && m.tables[NftsBackup] == tn
  {
    var s := Schema(map[Users := tu, Nfts := tn, Sessions := ts], idx, None);
    LegacyBranchEffect(s);
  }

  /**
   * The `users` table `createTables` builds has `telegram_id` as its key and
   * no `id` column, so the migrator takes it for the old schema: it backs up
   * and drops `users` and `nfts` (and their indexes), and the next
   * `createTables` builds the same old shape again.
   */
  lemma CreatedSchemaIsLegacy()
    ensures var s := Final(CreateTables(EmptySchema));
            var m := AfterMigrateToV1(s);
            && TableInfo(s, Users) == LegacyUsersColumns && Id !in TableInfo(s, Users)
            && m.tables.Keys == {Sessions, UsersBackup, NftsBackup}
            && m.tables[Sessions] == Table(LegacySessionsColumns, [])
            && m.tables[UsersBackup] == Table(LegacyUsersColumns, [])
            && m.tables[NftsBackup] == Table(LegacyNftsColumns, [])
            && TableInfo(Final(CreateTables(m)), Users) == LegacyUsersColumns
  {
    CreateTablesOnNewFile();
    var s := Schema(LegacyTables, LegacyIndexes, None);
    assert Final(CreateTables(EmptySchema)) == s;
    assert TableInfo(s, Users) == LegacyUsersColumns;
    LegacyUsersLackId();
    MigrateThreeLegacyTables(Table(LegacyUsersColumns, []), Table(LegacyNftsColumns, []),
                             Table(LegacySessionsColumns, []), LegacyIndexes);
    var m := AfterMigrateToV1(s);
    assert Users !in m.tables;
    assert Final(CreateTables(m)).tables[Users] == Table(LegacyUsersColumns, []);
  }

  // ------------------------------------------------------------ the file

  /** The open database file, changed statement by statement. */
  class Connection {
    var tables: map<string, Table>
    var indexes: map<string, Index>
    var versions: Option<seq<int>>

    function Current(): Schema
      reads this
    {
      Schema(tables, indexes, versions)
    }

    /** The schema is the one the execution ends in, and an error is reported exactly when it halted. */
    ghost predicate Applied(r: Exec, err: Option<SqlError>)
      reads this
    {
      Current() == Final(r) && (err.Some? <==> r.Failure?)
    }

    constructor (s: Schema)
      ensures Current() == s
    {
      tables, indexes, versions := s.tables, s.indexes, s.versions;
    }

    method ExecCreateTableAs(dst: string, src: string) returns (err: Option<SqlError>)
      modifies this
      ensures Applied(CreateTableAs(old(Current()), dst, src), err)
    {
      if dst in tables {
        return Some(TableExists(dst));
      }
      if src !in tables {
        return Some(NoSuchTable(src));
      }
      tables := tables[dst := tables[src]];
      err := None;
    }

    method ExecDropTable(name: string, ifExists: bool) returns (err: Option<SqlError>)
      modifies this
      ensures Applied(DropTable(old(Current()), name, ifExists), err)
    {
      if name !in tables {
        return if ifExists then None else Some(NoSuchTable(name));
      }
      tables := tables - {name};
      indexes := map k | k in indexes && indexes[k].table != name :: indexes[k];
      err := None;
    }

    method ExecAddColumn(table: string, column: string, v: Value) returns (err: Option<SqlError>)
      modifies this
      ensures Applied(AddColumn(old(Current()), table, column, v), err)
    {
      if table !in tables {
        return Some(NoSuchTable(table));
      }
      var t := tables[table];
      if column in t.columns {
        return Some(DuplicateColumn(table, column));
      }
      tables := tables[table := Table(t.columns + [column], WithCell(t.rows, column, v))];
      err := None;
    }

    method ExecCreateIndexIfNotExists(name: string, idx: Index) returns (err: Option<SqlError>)
      modifies this
      ensures Applied(CreateIndexIfNotExists(old(Current()), name, idx), err)
    {
      if name in indexes {
        return None;
      }
      if idx.table !in tables {
        return Some(NoSuchTable(idx.table));
      }
      if idx.column !in tables[idx.table].columns {
        return Some(NoSuchColumn(idx.table, idx.column));
      }
      if idx.unique && HasDuplicate(tables[idx.table].rows, idx.column) {
        return Some(UniqueViolation(name));
      }
      indexes := indexes[name := idx];
      err := None;
    }

    method MigrateLegacy() returns (err: Option<SqlError>)
      modifies this
      ensures Applied(LegacyBranch(old(Current())), err)
    {
      err := ExecCreateTableAs(UsersBackup, Users);
      if err.Some? {
        return;
      }
      err := ExecCreateTableAs(NftsBackup, Nfts);
      if err.Some? {
        return;
      }
      err := ExecDropTable(Nfts, true);
      if err.Some? {
        return;
      }
      err := ExecDropTable(Users, true);
    }

    method MigrateNfts() returns (err: Option<SqlError>)
      modifies this
      ensures Applied(NftsStep(old(Current())), err)
    {
      var info := TableInfo(Current(), Nfts);
      if OwnerUserId !in info {
        err := ExecCreateTableAs(NftsBackup, Nfts);
        if err.Some? {
          return;
        }
        err := ExecDropTable(Nfts, false);
      } else if Platform !in info {
        err := ExecAddColumn(Nfts, Platform, DefaultPlatform);
      } else {
        err := None;
      }
    }

    method MigratePartial(hasFid: bool, hasPlatform: bool) returns (err: Option<SqlError>)
      modifies this
      ensures Applied(PartialBranch(old(Current()), hasFid, hasPlatform), err)
    {
      if !hasFid {
        err := ExecAddColumn(Users, FarcasterFid, Null);
        if err.Some? {
          return;
        }
        err := ExecCreateIndexIfNotExists(FarcasterIndex, FarcasterIndexDef);
        if err.Some? {
          return;
        }
      }
      if !hasPlatform {
        err := ExecAddColumn(Users, Platform, DefaultPlatform);
        if err.Some? {
          return;
        }
      }
      err := MigrateNfts();
    }

    /** `migrateToV1`: the error, if any, is swallowed by the catch. */
    method MigrateToV1()
      modifies this
      ensures Current() == AfterMigrateToV1(old(Current()))
    {
      var info := TableInfo(Current(), Users);
      if |info| == 0 {
        return;
      }
      var err: Option<SqlError>;
      if Id !in info {
        err := MigrateLegacy();
      } else if FarcasterFid !in info || Platform !in info {
        err := MigratePartial(FarcasterFid in info, Platform in info);
      }
    }

    /** `getDatabaseVersion` */
    method GetDatabaseVersion() returns (v: int)
      modifies this
      ensures Current() == EnsureVersionTable(old(Current()))
      ensures v == StoredVersion(Current())
    {
      if versions.None? {
        versions := Some([]);
      }
      v := if |versions.value| > 0 then versions.value[0] else 0;
    }

    /** `setDatabaseVersion`: without the table, the DELETE fails and nothing changes. */
    method SetDatabaseVersion(v: int) returns (err: Option<SqlError>)
      modifies this
      ensures Applied(VersionStamp(old(Current()), v), err)
    {
      if versions.None? {
        return Some(NoSuchTable("schema_version"));
      }
      versions := Some([]);
      versions := Some(versions.value + [v]);
      assert versions.value == [v];
      err := None;
    }

    /** `runMigrations` */
    method RunMigrations()
      modifies this
      ensures Current() == AfterRunMigrations(old(Current()))
      ensures versions == Some([1])
    {
      var v := GetDatabaseVersion();
      if v < 1 {
        MigrateToV1();
      }
      var err := SetDatabaseVersion(1);
    }
  }
}
