/**
 * `DBCore`: the catalog state (`CURRENT_DB`, `DATABASES`, `schemas`) and the directory tree
 * it reads and writes. The spec functions over a `Catalog` snapshot say what each operation
 * does; the class `DBCore` performs the same steps on its fields and is proved against them.
 */
module DbCore {
  import opened Wrappers
  import opened Text
  import opened TypeValidator
  import opened Store
  import opened Schema

  /** The exceptions the core raises. */
  datatype DbError =
    | NoDatabaseSelected
    | EmptyName
    | AlreadyExists(name: string)
    | InvalidField(why: FieldError)
    | NoFields
    | CannotCreate(name: string)
    | WriteFailed(path: Path)
    | ReadFailed(path: Path, found: Opened)
    | CorruptData(table: string)
    | NotAList(table: string)

  /** A snapshot of a `DBCore` object together with the directory tree. */
  datatype Catalog = Catalog(
    currentDb: Option<string>,
    databases: seq<string>,
    schemas: map<string, Json>,
    fs: FileSystem)

  /** `if self.CURRENT_DB:` -- neither `None` nor the empty string. */
  predicate Selected(db: Option<string>) {
    db.Some? && db.value != ""
  }

  /**
   * The schema-loading loop of `load_db` from accumulated map `acc`: each file is loaded
   * under `TableNameOf` its name; the first directory or unparseable file stops the loop
   * and the tables loaded before it are kept.
   */
  function LoadFiles(files: seq<Entry>, acc: map<string, Json>): map<string, Json>
    decreases |files|
  {
    if files == [] then acc
    else match files[0]
      case File(name, Some(j)) => LoadFiles(files[1..], acc[TableNameOf(name) := j])
      case _ => acc
  }

  /** The tables `load_db` finds for database `db`: none when its schema directory cannot be listed. */
  function LoadSchemas(fs: FileSystem, db: string): map<string, Json> {
    match Listing(fs.structureRoot, db)
    case Err(_) => map[]
    case Ok(files) => LoadFiles(files, map[])
  }

  /** `load_db()`: refresh `DATABASES`; reload `schemas` only when a database is selected. */
  function LoadDbSpec(c: Catalog): Catalog {
    var dbs := ListDatabases(c.fs.structureRoot);
    if !Selected(c.currentDb) then c.(databases := dbs)
    else c.(databases := dbs, schemas := LoadSchemas(c.fs, c.currentDb.value))
  }

  /** `use_db(name)`: select `name` even when its directories are missing; load only when both exist. */
  function UseDbSpec(c: Catalog, name: string): Catalog {
    var selected := c.(currentDb := Some(name));
    if Exists(c.fs.dataRoot, name) && Exists(c.fs.structureRoot, name) then LoadDbSpec(selected) else selected
  }

  /**
   * `os.rmdir(os.path.join(root, name))` when the path exists: `Some` of the new root, with
   * the root unchanged when nothing is there; `None` when `rmdir` raises.
   */
  function RmdirIfExists(root: Option<seq<Entry>>, name: string): Option<Option<seq<Entry>>> {
    if !Exists(root, name) then Some(root)
    else match RemoveDir(root.value, name)
      case None => None
      case Some(entries) => Some(Some(entries))
  }

  /**
   * The `except` branch of `create_database`: `rmdir` on `data/<name>`, then on
   * `structure/<name>`, each when it exists. An `rmdir` that raises ends the rollback, and
   * whatever was removed before it stays removed.
   */
  function RollBack(fs: FileSystem, name: string): FileSystem {
    match RmdirIfExists(fs.dataRoot, name)
    case None => fs
    case Some(dataRoot) =>
      match RmdirIfExists(fs.structureRoot, name)
      case None => fs.(dataRoot := dataRoot)
      case Some(structureRoot) => FileSystem(dataRoot, structureRoot)
  }

  /**
   * `create_database(name)`: `data/<name>` then `structure/<name>` are made and the catalog
   * reloaded; when either `makedirs` fails, the tree goes through `RollBack`.
   */
  function CreateDatabaseSpec(c: Catalog, name: string): (Result<(), DbError>, Catalog) {
    if name == "" then (Err(EmptyName), c)
    else if name in c.databases then (Err(AlreadyExists(name)), c)
    else match MakeDir(c.fs.dataRoot, name)
      case None => (Err(CannotCreate(name)), c.(fs := RollBack(c.fs, name)))
      case Some(dataRoot) =>
        var fs1 := c.fs.(dataRoot := Some(dataRoot));
        match MakeDir(c.fs.structureRoot, name)
        case None => (Err(CannotCreate(name)), c.(fs := RollBack(fs1, name)))
        case Some(structureRoot) => (Ok(()), LoadDbSpec(c.(fs := FileSystem(Some(dataRoot), Some(structureRoot)))))
  }

  /** `_read_data(table)`: the table's records; `[]` when the data file is absent. */
  function ReadData(c: Catalog, table: string): Result<seq<Json>, DbError> {
    if !Selected(c.currentDb) then Err(NoDatabaseSelected)
    else
      var p := DataPath(c.currentDb.value, table);
      match Open(c.fs, p)
      case NotFound => Ok([])
      case Content(None) => Err(CorruptData(table))
      case Content(Some(JList(items))) => Ok(items)
      case Content(Some(_)) => Err(NotAList(table))
      case why => Err(ReadFailed(p, why))
  }

  /** Whether writing the table's two files fails, and the tree once they are written. */
  function WriteTable(fs: FileSystem, db: string, table: string, fields: seq<FieldDef>): (Result<(), DbError>, FileSystem) {
    match WriteFile(fs, SchemaPath(db, table), SchemaJson(table, fields))
    case None => (Err(WriteFailed(SchemaPath(db, table))), fs)
    case Some(fs1) =>
      match WriteFile(fs1, DataPath(db, table), JList([]))
      case None => (Err(WriteFailed(DataPath(db, table))), fs1)
      case Some(fs2) => (Ok(()), fs2)
  }

  /**
   * `create_table(table, fields_def)`: every check runs before anything is written; then the
   * schema file and an empty data file are written and the catalog is reloaded. When only the
   * data file cannot be written, the schema file stays written.
   */
  function CreateTableSpec(c: Catalog, table: string, fieldsDef: seq<string>): (Result<(), DbError>, Catalog) {
    if !Selected(c.currentDb) then (Err(NoDatabaseSelected), c)
    else if table == "" then (Err(EmptyName), c)
    else if table in c.schemas then (Err(AlreadyExists(table)), c)
    else match ParseFields(fieldsDef)
      case Err(e) => (Err(InvalidField(e)), c)
      case Ok(fields) =>
        if fields == [] then (Err(NoFields), c)
        else
          var (r, fs') := WriteTable(c.fs, c.currentDb.value, table, fields);
          if r.Err? then (r, c.(fs := fs')) else (r, LoadDbSpec(c.(fs := fs')))
  }

  // ---------------------------------------------------------------------------------------
  // Properties of the catalog operations

  /** `DATABASES` after `load_db` names exactly the non-hidden directories of `STRUCTURE_DIR`. */
  lemma LoadDbDatabases(c: Catalog, x: string)
    ensures x in LoadDbSpec(c).databases <==>
              c.fs.structureRoot.Some? && exists e :: e in c.fs.structureRoot.value && IsDatabaseDir(e) && e.name == x
  {
    if c.fs.structureRoot.Some? {
      DatabaseNamesMembers(c.fs.structureRoot.value, x);
    }
  }

  /** Without a selected database `load_db` keeps `schemas` and `CURRENT_DB`, and never touches the tree. */
  lemma LoadDbWithoutSelection(c: Catalog)
    ensures LoadDbSpec(c).fs == c.fs && LoadDbSpec(c).currentDb == c.currentDb
    ensures !Selected(c.currentDb) ==> LoadDbSpec(c).schemas == c.schemas
  {
  }

  /** `use_db` selects the database even when its directories are missing, and then changes nothing else. */
  lemma UseDbSelects(c: Catalog, name: string)
    ensures UseDbSpec(c, name).currentDb == Some(name)
    ensures UseDbSpec(c, name).fs == c.fs
    ensures !(Exists(c.fs.dataRoot, name) && Exists(c.fs.structureRoot, name)) ==>
              UseDbSpec(c, name) == c.(currentDb := Some(name))
  {
  }

  /** `create_database` refuses an empty name and a name already in `DATABASES`, changing nothing. */
  lemma CreateDatabaseRejects(c: Catalog, name: string)
    requires name == "" || name in c.databases
    ensures CreateDatabaseSpec(c, name) == (Err(if name == "" then EmptyName else AlreadyExists(name)), c)
  {
  }

  /**
   * A created database has both directories, keeps the selection, and is listed in
   * `DATABASES` unless its name starts with `.`. Every other directory of the tree, and
   * every other name `load_db` lists, is as it was.
   */
  lemma CreateDatabaseCreates(c: Catalog, name: string)
    requires CreateDatabaseSpec(c, name).0.Ok?
    ensures var c' := CreateDatabaseSpec(c, name).1;
            && Listing(c'.fs.dataRoot, name) == Ok([])
            && Listing(c'.fs.structureRoot, name) == Ok([])
            && c'.currentDb == c.currentDb
            && (!StartsWith(name, ".") <==> name in c'.databases)
    ensures var c' := CreateDatabaseSpec(c, name).1;
            && (forall q: Path :: q.db != name ==> Open(c'.fs, q) == Open(c.fs, q))
            && (forall x :: x != name ==> (x in c'.databases <==> x in ListDatabases(c.fs.structureRoot)))
  {
    var fs' := CreatedTree(c, name);
    MadeDatabaseListed(c.fs.structureRoot, name);
    forall q: Path | q.db != name
      ensures Open(fs', q) == Open(c.fs, q)
    {
      MakeDirOther(c.fs.dataRoot, name, q.db);
      MakeDirOther(c.fs.structureRoot, name, q.db);
    }
  }

  /** A successful `create_database` made both directories and reloaded the catalog over the new tree. */
  lemma CreatedTree(c: Catalog, name: string) returns (fs': FileSystem)
    requires CreateDatabaseSpec(c, name).0.Ok?
    ensures fs' == FileSystem(MakeDir(c.fs.dataRoot, name), MakeDir(c.fs.structureRoot, name))
    ensures MakeDir(c.fs.dataRoot, name).Some? && MakeDir(c.fs.structureRoot, name).Some?
    ensures var c' := CreateDatabaseSpec(c, name).1;
            c'.fs == fs' && c'.currentDb == c.currentDb && c'.databases == ListDatabases(fs'.structureRoot)
  {
    fs' := FileSystem(MakeDir(c.fs.dataRoot, name), MakeDir(c.fs.structureRoot, name));
    assert CreateDatabaseSpec(c, name).1 == LoadDbSpec(c.(fs := fs'));
  }

  /** After `makedirs` of `name` in `STRUCTURE_DIR`, `load_db` lists `name` unless it starts with `.`, and lists the same other names. */
  lemma MadeDatabaseListed(root: Option<seq<Entry>>, name: string)
    requires MakeDir(root, name).Some?
    ensures !StartsWith(name, ".") <==> name in ListDatabases(MakeDir(root, name))
    ensures forall x :: x != name ==> (x in ListDatabases(MakeDir(root, name)) <==> x in ListDatabases(root))
  {
    var before := if root.Some? then root.value else [];
    DatabaseNamesAppend(before, Dir(name, []));
    DatabaseNamesMembers(before, name);
  }

  /**
   * A failed `create_database` changes only the tree, and only at `name`. It fails only when
   * an entry (file or directory) of that name was already there. A data directory it made
   * is removed again; an existing `data/<name>` that is not an empty directory makes `rmdir`
   * raise at once, leaving the tree as it was.
   */
  lemma CreateDatabaseFails(c: Catalog, name: string)
    requires name != "" && name !in c.databases
    requires CreateDatabaseSpec(c, name).0.Err?
    ensures var c' := CreateDatabaseSpec(c, name).1;
            && CreateDatabaseSpec(c, name).0 == Err(CannotCreate(name))
            && c' == c.(fs := c'.fs)
            && (Exists(c.fs.dataRoot, name) || Exists(c.fs.structureRoot, name))
            && (forall q: Path :: q.db != name ==> Open(c'.fs, q) == Open(c.fs, q))
            && (!Exists(c.fs.dataRoot, name) ==> Listing(c'.fs.dataRoot, name) == Err(NotFound))
            && (Exists(c.fs.dataRoot, name) && Find(c.fs.dataRoot.value, name) != Some(Dir(name, [])) ==> c' == c)
  {
    var c' := CreateDatabaseSpec(c, name).1;
    forall q: Path | q.db != name
      ensures Open(c'.fs, q) == Open(c.fs, q)
    {
      RollBackOther(c.fs, name, q.db);
      if MakeDir(c.fs.dataRoot, name).Some? {
        MakeDirOther(c.fs.dataRoot, name, q.db);
        RollBackOther(c.fs.(dataRoot := MakeDir(c.fs.dataRoot, name)), name, q.db);
      }
    }
    if !Exists(c.fs.dataRoot, name) {
      var entries := if c.fs.dataRoot.Some? then c.fs.dataRoot.value else [];
      RemoveDirMade(entries, name);
    }
  }

  /** The rollback touches no directory but `name`'s. */
  lemma RollBackOther(fs: FileSystem, name: string, db: string)
    requires db != name
    ensures Listing(RollBack(fs, name).dataRoot, db) == Listing(fs.dataRoot, db)
    ensures Listing(RollBack(fs, name).structureRoot, db) == Listing(fs.structureRoot, db)
  {
  }

  /**
   * `create_database(".x")` on a tree that already holds the empty directories `data/.x` and
   * `structure/.x`: `load_db` never lists `.x`, so the name check passes, the first `makedirs`
   * fails, and the rollback deletes both directories.
   */
  lemma CreateDatabaseRemovesExistingEmptyDirectories()
    ensures var c := Catalog(None, [], map[], FileSystem(Some([Dir(".x", [])]), Some([Dir(".x", [])])));
            CreateDatabaseSpec(c, ".x") == (Err(CannotCreate(".x")), c.(fs := FileSystem(Some([]), Some([]))))
  {
    assert [Dir(".x", [])][1..] == [];
  }

  /** `_read_data` raises without a selected database and returns `[]` when the data file is absent. */
  lemma ReadDataCases(c: Catalog, table: string)
    ensures !Selected(c.currentDb) ==> ReadData(c, table) == Err(NoDatabaseSelected)
    ensures Selected(c.currentDb) && Open(c.fs, DataPath(c.currentDb.value, table)) == NotFound ==>
              ReadData(c, table) == Ok([])
    ensures Selected(c.currentDb) && Open(c.fs, DataPath(c.currentDb.value, table)).Content? ==>
              (ReadData(c, table).Ok? <==> Open(c.fs, DataPath(c.currentDb.value, table)).content.Some?
                                            && Open(c.fs, DataPath(c.currentDb.value, table)).content.value.JList?)
  {
  }

  /** Every check of `create_table` fails before anything is written: the catalog and the tree are unchanged. */
  lemma CreateTableRejects(c: Catalog, table: string, fieldsDef: seq<string>)
    requires || !Selected(c.currentDb)
             || table == ""
             || table in c.schemas
             || fieldsDef == []
             || (exists i :: 0 <= i < |fieldsDef| && !TokenValid(fieldsDef[i]))
             || PkTokenCount(fieldsDef) > 1
    ensures CreateTableSpec(c, table, fieldsDef).0.Err?
    ensures CreateTableSpec(c, table, fieldsDef).1 == c
  {
    ParseFieldsOk(fieldsDef);
    if ParseFields(fieldsDef).Ok? {
      ParseFieldsResult(fieldsDef);
    }
  }

  /**
   * A successful `create_table` wrote the schema built from `fields_def` (one well-formed
   * field per token, in order) to the table's schema file and `[]` to its data file, kept
   * the selection, and left every other file of the tree as it was.
   */
  lemma CreateTableWrites(c: Catalog, table: string, fieldsDef: seq<string>)
    requires CreateTableSpec(c, table, fieldsDef).0.Ok?
    ensures Selected(c.currentDb) && table != "" && table !in c.schemas
    ensures ParseFields(fieldsDef).Ok?
    ensures var fields := ParseFields(fieldsDef).value;
            && |fields| == |fieldsDef| > 0
            && WellFormed(fields)
            && (forall k :: 0 <= k < |fields| ==> Declares(fields[k], fieldsDef[k]))
    ensures var c' := CreateTableSpec(c, table, fieldsDef).1;
            && c'.currentDb == c.currentDb
            && Open(c'.fs, SchemaPath(c.currentDb.value, table)) == Content(Some(SchemaJson(table, ParseFields(fieldsDef).value)))
            && Open(c'.fs, DataPath(c.currentDb.value, table)) == Content(Some(JList([])))
            && forall q :: q != SchemaPath(c.currentDb.value, table) && q != DataPath(c.currentDb.value, table) ==>
                 Open(c'.fs, q) == Open(c.fs, q)
  {
    ParseFieldsResult(fieldsDef);
    var db := c.currentDb.value;
    var fields := ParseFields(fieldsDef).value;
    var sp, dp := SchemaPath(db, table), DataPath(db, table);
    var fs1 := WriteFile(c.fs, sp, SchemaJson(table, fields)).value;
    WriteFileOther(fs1, dp, JList([]), sp);
    forall q | q != sp && q != dp
      ensures Open(CreateTableSpec(c, table, fieldsDef).1.fs, q) == Open(c.fs, q)
    {
      WriteFileOther(fs1, dp, JList([]), q);
      WriteFileOther(c.fs, sp, SchemaJson(table, fields), q);
    }
  }

  /** A freshly created table reads back as an empty record list. */
  lemma CreateTableThenReadData(c: Catalog, table: string, fieldsDef: seq<string>)
    requires CreateTableSpec(c, table, fieldsDef).0.Ok?
    ensures ReadData(CreateTableSpec(c, table, fieldsDef).1, table) == Ok([])
  {
    CreateTableWrites(c, table, fieldsDef);
  }

  /** Every entry of a schema directory is a file holding valid JSON. */
  predicate AllLoadable(files: seq<Entry>) {
    forall k :: 0 <= k < |files| ==> files[k].File? && files[k].content.Some?
  }

  lemma {:induction false} LoadFilesAppend(files: seq<Entry>, acc: map<string, Json>, name: string, j: Json)
    requires AllLoadable(files)
    ensures LoadFiles(files + [File(name, Some(j))], acc) == LoadFiles(files, acc)[TableNameOf(name) := j]
    decreases |files|
  {
    if files != [] {
      assert (files + [File(name, Some(j))])[1..] == files[1..] + [File(name, Some(j))];
      var f := files[0];
      LoadFilesAppend(files[1..], acc[TableNameOf(f.name) := f.content.value], name, j);
    }
  }

  /**
   * Round trip through the schema directory: when every file already there loads and none
   * of them loads under `table`, and `table` does not contain `_schema.json`, a successful
   * `create_table` leaves `schemas[table]` equal to the schema it wrote.
   */
  lemma CreateTableRoundTrip(c: Catalog, table: string, fieldsDef: seq<string>)
    requires CreateTableSpec(c, table, fieldsDef).0.Ok?
    requires Listing(c.fs.structureRoot, c.currentDb.value).Ok?
    requires AllLoadable(Listing(c.fs.structureRoot, c.currentDb.value).value)
    requires forall e :: e in Listing(c.fs.structureRoot, c.currentDb.value).value ==> TableNameOf(e.name) != table
    requires !Contains(table, SchemaSuffix)
    ensures CreateTableSpec(c, table, fieldsDef).1.schemas == LoadFiles(Listing(c.fs.structureRoot, c.currentDb.value).value, map[])[table := SchemaJson(table, ParseFields(fieldsDef).value)]
    ensures table in CreateTableSpec(c, table, fieldsDef).1.schemas
    ensures CreateTableSpec(c, table, fieldsDef).1.schemas[table] == SchemaJson(table, ParseFields(fieldsDef).value)
  {
    var db := c.currentDb.value;
    var fields := ParseFields(fieldsDef).value;
    var files := Listing(c.fs.structureRoot, db).value;
    var sp := SchemaPath(db, table);
    TableNameOfSchemaFile(table);
    assert Find(files, sp.file).None?;
    var fs1 := WriteFile(c.fs, sp, SchemaJson(table, fields)).value;
    var file := File(sp.file, Some(SchemaJson(table, fields)));
    assert Listing(fs1.structureRoot, db) == Ok(files + [file]);
    var fs2 := WriteFile(fs1, DataPath(db, table), JList([])).value;
    assert fs2.structureRoot == fs1.structureRoot;
    LoadFilesAppend(files, map[], sp.file, SchemaJson(table, fields));
  }

  // ---------------------------------------------------------------------------------------
  // The object

  class DBCore {
    var currentDb: Option<string>
    var databases: seq<string>
    var schemas: map<string, Json>
    /** The directory tree under `DATA_DIR` and `STRUCTURE_DIR`. */
    var fs: FileSystem

    function State(): Catalog
      reads this
    {
      Catalog(currentDb, databases, schemas, fs)
    }

    /** `DBCore()`: nothing selected, nothing listed, nothing loaded. */
    constructor (disk: FileSystem)
      ensures State() == Catalog(None, [], map[], disk)
    {
      currentDb := None;
      schemas := map[];
      databases := [];
      fs := disk;
    }

    /** `load_db()` */
    method LoadDb()
      modifies this
      ensures State() == LoadDbSpec(old(State()))
    {
      var found: seq<string> := [];
      if fs.structureRoot.Some? {
        var entries := fs.structureRoot.value;
        var i := 0;
        while i < |entries|
          invariant 0 <= i <= |entries|
          invariant found == DatabaseNames(entries[..i])
        {
          if IsDatabaseDir(entries[i]) {
            found := found + [entries[i].name];
          }
          assert entries[..i + 1][..i] == entries[..i];
          i := i + 1;
        }
        assert entries[..|entries|] == entries;
      }
      databases := found;
      if !Selected(currentDb) {
        return;
      }
      schemas := map[];
      match Listing(fs.structureRoot, currentDb.value) {
        case Err(_) =>
        case Ok(files) =>
          var i := 0;
          while i < |files|
            invariant 0 <= i <= |files|
            invariant currentDb == old(currentDb) && fs == old(fs) && databases == found
            invariant LoadFiles(files, map[]) == LoadFiles(files[i..], schemas)
          {
            match files[i] {
              case File(name, Some(j)) =>
                schemas := schemas[TableNameOf(name) := j];
              case _ =>
                break;
            }
            assert files[i..][1..] == files[i + 1..];
            i := i + 1;
          }
      }
    }

    /** `use_db(name)` */
    method UseDb(name: string)
      modifies this
      ensures State() == UseDbSpec(old(State()), name)
    {
      currentDb := Some(name);
      if Exists(fs.dataRoot, name) && Exists(fs.structureRoot, name) {
        LoadDb();
      }
    }

    /** `create_database(name)` */
    method CreateDatabase(name: string) returns (r: Result<(), DbError>)
      modifies this
      ensures (r, State()) == CreateDatabaseSpec(old(State()), name)
    {
      if name == "" {
        return Err(EmptyName);
      }
      if name in databases {
        return Err(AlreadyExists(name));
      }
      var dataRoot := MakeDir(fs.dataRoot, name);
      if dataRoot.None? {
        RollBackDirs(name);
        return Err(CannotCreate(name));
      }
      fs := fs.(dataRoot := dataRoot);
      var structureRoot := MakeDir(fs.structureRoot, name);
      if structureRoot.None? {
        RollBackDirs(name);
        return Err(CannotCreate(name));
      }
      fs := fs.(structureRoot := structureRoot);
      LoadDb();
      r := Ok(());
    }

    /** The `except` branch of `create_database`: `rmdir` on each of the two directories that exists. */
    method RollBackDirs(name: string)
      modifies this
      ensures State() == old(State()).(fs := RollBack(old(fs), name))
    {
      if Exists(fs.dataRoot, name) {
        var removed := RemoveDir(fs.dataRoot.value, name);
        if removed.None? {
          return;
        }
        fs := fs.(dataRoot := removed);
      }
      if Exists(fs.structureRoot, name) {
        var removed := RemoveDir(fs.structureRoot.value, name);
        if removed.None? {
          return;
        }
        fs := fs.(structureRoot := removed);
      }
    }

    /** `create_table(table, fields_def)` */
    method CreateTable(table: string, fieldsDef: seq<string>) returns (r: Result<(), DbError>)
      modifies this
      ensures (r, State()) == CreateTableSpec(old(State()), table, fieldsDef)
    {
      if !Selected(currentDb) {
        return Err(NoDatabaseSelected);
      }
      if table == "" {
        return Err(EmptyName);
      }
      if table in schemas {
        return Err(AlreadyExists(table));
      }
      var parsed := ParseFieldsDef(fieldsDef);
      if parsed.Err? {
        return Err(InvalidField(parsed.error));
      }
      var fields := parsed.value;
      if fields == [] {
        return Err(NoFields);
      }
      ghost var c := State();
      var db := currentDb.value;
      var written := WriteFile(fs, SchemaPath(db, table), SchemaJson(table, fields));
      if written.None? {
        assert CreateTableSpec(c, table, fieldsDef) == (Err(WriteFailed(SchemaPath(db, table))), c);
        return Err(WriteFailed(SchemaPath(db, table)));
      }
      fs := written.value;
      written := WriteFile(fs, DataPath(db, table), JList([]));
      if written.None? {
        assert CreateTableSpec(c, table, fieldsDef) == (Err(WriteFailed(DataPath(db, table))), State());
        return Err(WriteFailed(DataPath(db, table)));
      }
      fs := written.value;
      assert CreateTableSpec(c, table, fieldsDef) == (Ok(()), LoadDbSpec(State()));
      LoadDb();
      r := Ok(());
    }
  }

  /**
   * The loop of `create_table` over `fields_def`: the fields in declaration order, with
   * `pk_count` counting primary keys; the first refused token ends it.
   */
  method ParseFieldsDef(fieldsDef: seq<string>) returns (r: Result<seq<FieldDef>, FieldError>)
    ensures r == ParseFields(fieldsDef)
  {
    var fields: seq<FieldDef> := [];
    var pkCount := 0;
    var i := 0;
    assert fieldsDef[0..] == fieldsDef;
    assert Prefixed([], ParseFieldsFrom(fieldsDef, false)) == ParseFieldsFrom(fieldsDef, false) by {
      if ParseFieldsFrom(fieldsDef, false).Ok? {
        assert [] + ParseFieldsFrom(fieldsDef, false).value == ParseFieldsFrom(fieldsDef, false).value;
      }
    }
    while i < |fieldsDef|
      invariant 0 <= i <= |fieldsDef|
      invariant 0 <= pkCount <= 1
      invariant ParseFields(fieldsDef) == Prefixed(fields, ParseFieldsFrom(fieldsDef[i..], pkCount > 0))
    {
      var token := fieldsDef[i];
      var f, err := ParseToken(token, pkCount);
      assert fieldsDef[i..][0] == token && fieldsDef[i..][1..] == fieldsDef[i + 1..];
      if err.Some? {
        ParseFieldsFromStep(fieldsDef[i..], pkCount > 0);
        return Err(err.value);
      }
      ParseFieldsFromStep(fieldsDef[i..], pkCount > 0);
      PrefixedPrefixed(fields, [f], ParseFieldsFrom(fieldsDef[i + 1..], pkCount > 0 || f.primaryKey));
      if f.primaryKey {
        pkCount := pkCount + 1;
      }
      fields := fields + [f];
      i := i + 1;
    }
    assert fieldsDef[i..] == [] && fields + [] == fields;
    r := Ok(fields);
  }

  /** `fields` followed by the fields of `rest`, or `rest`'s error. */
  function Prefixed(fields: seq<FieldDef>, rest: Result<seq<FieldDef>, FieldError>): Result<seq<FieldDef>, FieldError> {
    match rest
    case Err(e) => Err(e)
    case Ok(more) => Ok(fields + more)
  }

  /** One step of `ParseFieldsFrom`: the first token's field, then the rest's. */
  lemma ParseFieldsFromStep(tokens: seq<string>, pkSeen: bool)
    requires tokens != []
    ensures ParseField(tokens[0], pkSeen).Err? ==>
              ParseFieldsFrom(tokens, pkSeen) == Err(ParseField(tokens[0], pkSeen).error)
    ensures ParseField(tokens[0], pkSeen).Ok? ==>
              var f := ParseField(tokens[0], pkSeen).value;
              ParseFieldsFrom(tokens, pkSeen) == Prefixed([f], ParseFieldsFrom(tokens[1..], pkSeen || f.primaryKey))
  {
  }

  lemma PrefixedPrefixed(a: seq<FieldDef>, b: seq<FieldDef>, rest: Result<seq<FieldDef>, FieldError>)
    ensures Prefixed(a, Prefixed(b, rest)) == Prefixed(a + b, rest)
  {
    if rest.Ok? {
      assert a + (b + rest.value) == (a + b) + rest.value;
    }
  }

  /**
   * The body of `create_table`'s loop for one token, with `pkCount` the primary keys seen
   * so far: the field it appends, or the error it raises.
   */
  method ParseToken(token: string, pkCount: int) returns (f: FieldDef, err: Option<FieldError>)
    requires 0 <= pkCount <= 1
    ensures err.Some? ==> ParseField(token, pkCount > 0) == Err(err.value)
    ensures err.None? ==> ParseField(token, pkCount > 0) == Ok(f)
  {
    f := FieldDef("", StringType, false, false, false, None);
    var parts := Parts(token);
    assert ParseField(token, pkCount > 0) == ParseParts(parts, token, pkCount > 0);
    if |parts| < 2 {
      return f, Some(MalformedField(token));
    }
    var column, columnType := parts[0], parts[1];
    var ty := ParseColType(columnType);
    if ty.None? {
      return f, Some(InvalidType(column, columnType));
    }
    var isPk := "pk" in parts || "primary_key" in parts;
    var isAuto := "auto" in parts || "auto_increment" in parts;
    var primaryKey, required, autoIncrement := false, false, false;
    if isPk {
      if pkCount + 1 > 1 {
        return f, Some(MultiplePrimaryKeys(column));
      }
      primaryKey, required := true, true;
    }
    if isAuto {
      if !isPk {
        return f, Some(AutoIncrementWithoutPrimaryKey(column));
      }
      if columnType != "integer" {
        return f, Some(AutoIncrementNotInteger(column));
      }
      autoIncrement := true;
    }
    var isRequired := "notnull" in parts || "required" in parts;
    var defaultValue := FindDefault(parts);
    var defaultFits := defaultValue.Some? && ValidateType(StrValue(defaultValue.value), columnType);
    if defaultValue.Some? && !defaultFits {
      return f, Some(InvalidDefault(column, defaultValue.value));
    }
    if isRequired {
      if defaultFits && defaultValue.value != "" {
        required := true;
      } else {
        return f, Some(RequiredWithoutDefault(column));
      }
    } else if isPk {
      required := true;
    }
    f := FieldDef(column, ty.value, primaryKey, autoIncrement, required, defaultValue);
    err := None;
  }
}
