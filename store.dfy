/**
 * The on-disk layout the core reads and writes, kept in memory: the two root directories
 * `DATA_DIR` and `STRUCTURE_DIR`, each a listing of entries in the order `os.listdir`
 * yields them. A database is a directory under each root; a table is a file
 * `<table>_schema.json` under `STRUCTURE_DIR/<db>` and a file `<table>_data.json`
 * under `DATA_DIR/<db>`.
 */
module Store {
  import opened Wrappers
  import opened Text

  /** A JSON document as `json.load` returns it. */
  datatype Json =
    | JNull
    | JBool(b: bool)
    | JInt(i: int)
    | JStr(s: string)
    | JList(items: seq<Json>)
    | JObject(fields: map<string, Json>)

  /** A directory entry. A file's content is `None` when it is not valid JSON. */
  datatype Entry =
    | File(name: string, content: Option<Json>)
    | Dir(name: string, entries: seq<Entry>)

  /** The two roots; `None` when the root directory does not exist. */
  datatype FileSystem = FileSystem(dataRoot: Option<seq<Entry>>, structureRoot: Option<seq<Entry>>)

  datatype Area = DataArea | StructureArea

  /** `os.path.join(<root of area>, db, file)` */
  datatype Path = Path(area: Area, db: string, file: string)

  const SchemaSuffix := "_schema.json"
  const DataSuffix := "_data.json"

  function Root(fs: FileSystem, area: Area): Option<seq<Entry>> {
    match area
    case DataArea => fs.dataRoot
    case StructureArea => fs.structureRoot
  }

  function WithRoot(fs: FileSystem, area: Area, root: seq<Entry>): (r: FileSystem)
    ensures Root(r, area) == Some(root)
    ensures forall other :: other != area ==> Root(r, other) == Root(fs, other)
  {
    match area
    case DataArea => fs.(dataRoot := Some(root))
    case StructureArea => fs.(structureRoot := Some(root))
  }

  /** `_get_schema_path(table)`: `STRUCTURE_DIR/<db>/<table>_schema.json`. */
  function SchemaPath(db: string, table: string): (p: Path)
    ensures p.area == StructureArea && p.db == db
    ensures StartsWith(p.file, table) && p.file[|table|..] == SchemaSuffix
  {
    Path(StructureArea, db, table + SchemaSuffix)
  }

  /** `_get_data_path(table)`: `DATA_DIR/<db>/<table>_data.json`. */
  function DataPath(db: string, table: string): (p: Path)
    ensures p.area == DataArea && p.db == db
    ensures StartsWith(p.file, table) && p.file[|table|..] == DataSuffix
  {
    Path(DataArea, db, table + DataSuffix)
  }

  /** Distinct tables have distinct schema files and distinct data files, and no schema file is a data file. */
  lemma PathsAreDistinct(db: string, t1: string, t2: string)
    ensures SchemaPath(db, t1) != DataPath(db, t2)
    ensures SchemaPath(db, t1) == SchemaPath(db, t2) ==> t1 == t2
    ensures DataPath(db, t1) == DataPath(db, t2) ==> t1 == t2
  {
    if SchemaPath(db, t1) == SchemaPath(db, t2) {
      assert |t1| == |t2|;
      assert t1 == (t1 + SchemaSuffix)[..|t1|];
    }
    if DataPath(db, t1) == DataPath(db, t2) {
      assert |t1| == |t2|;
      assert t1 == (t1 + DataSuffix)[..|t1|];
    }
  }

  /** `filename.replace("_schema.json", "")`: the table name `load_db` gives a schema file. */
  function TableNameOf(fileName: string): string {
    RemoveAll(fileName, SchemaSuffix)
  }

  /** The schema file of a table whose name does not contain `_schema.json` loads back under that name. */
  lemma TableNameOfSchemaFile(table: string)
    requires !Contains(table, SchemaSuffix)
    ensures TableNameOf(SchemaPath("", table).file) == table
  {
    assert forall k :: 0 < k < |SchemaSuffix| ==> SchemaSuffix[k] != SchemaSuffix[0];
    RemoveAllSuffix(table, SchemaSuffix);
  }

  /** The first entry called `name`. */
  function Find(entries: seq<Entry>, name: string): (r: Option<Entry>)
    ensures r.Some? ==> r.value in entries && r.value.name == name
    ensures r.None? ==> forall e :: e in entries ==> e.name != name
    decreases |entries|
  {
    if entries == [] then None
    else if entries[0].name == name then Some(entries[0])
    else Find(entries[1..], name)
  }

  /** Replaces the first entry called `name` (which exists) with `e`. */
  function Replace(entries: seq<Entry>, name: string, e: Entry): (r: seq<Entry>)
    requires Find(entries, name).Some? && e.name == name
    ensures |r| == |entries|
    ensures Find(r, name) == Some(e)
    ensures forall n :: n != name ==> Find(r, n) == Find(entries, n)
    decreases |entries|
  {
    if entries[0].name == name then [e] + entries[1..]
    else [entries[0]] + Replace(entries[1..], name, e)
  }

  lemma {:induction false} FindAppend(entries: seq<Entry>, e: Entry, n: string)
    requires Find(entries, e.name).None?
    ensures Find(entries + [e], n) == if n == e.name then Some(e) else Find(entries, n)
    decreases |entries|
  {
    if entries != [] {
      assert (entries + [e])[1..] == entries[1..] + [e];
      if entries[0].name != n {
        FindAppend(entries[1..], e, n);
      }
    }
  }

  /** `os.path.exists(os.path.join(root, name))` for a single path component. */
  predicate Exists(root: Option<seq<Entry>>, name: string) {
    root.Some? && (name == "" || Find(root.value, name).Some?)
  }

  /** What `open(path)` finds. */
  datatype Opened =
    | NotFound        // FileNotFoundError
    | NotADirectory   // NotADirectoryError: the database component is a file
    | IsADirectory    // IsADirectoryError: the file component is a directory
    | Content(content: Option<Json>)

  /** The entries of directory `root/db`, telling a missing directory from a file in its place. */
  function Listing(root: Option<seq<Entry>>, db: string): Result<seq<Entry>, Opened> {
    if root.None? then Err(NotFound)
    else match Find(root.value, db)
      case None => Err(NotFound)
      case Some(File(_, _)) => Err(NotADirectory)
      case Some(Dir(_, entries)) => Ok(entries)
  }

  /** `open(path, 'r')` followed by `json.load`. */
  function Open(fs: FileSystem, p: Path): Opened {
    match Listing(Root(fs, p.area), p.db)
    case Err(why) => why
    case Ok(entries) =>
      match Find(entries, p.file)
      case None => NotFound
      case Some(Dir(_, _)) => IsADirectory
      case Some(File(_, content)) => Content(content)
  }

  /**
   * `open(path, 'w')` followed by `json.dump(j)`: `None` when the open fails; otherwise the
   * file is overwritten in place, or added at the end of its directory's listing.
   */
  function WriteFile(fs: FileSystem, p: Path, j: Json): (r: Option<FileSystem>)
    ensures r.Some? <==> Listing(Root(fs, p.area), p.db).Ok? && Open(fs, p) != IsADirectory
    ensures r.Some? ==> Open(r.value, p) == Content(Some(j))
  {
    match Listing(Root(fs, p.area), p.db)
    case Err(_) => None
    case Ok(entries) =>
      match Find(entries, p.file)
      case Some(Dir(_, _)) => None
      case Some(File(_, _)) =>
        var entries' := Replace(entries, p.file, File(p.file, Some(j)));
        Some(WithRoot(fs, p.area, Replace(Root(fs, p.area).value, p.db, Dir(p.db, entries'))))
      case None =>
        var file := File(p.file, Some(j));
        FindAppend(entries, file, p.file);
        var entries' := entries + [file];
        Some(WithRoot(fs, p.area, Replace(Root(fs, p.area).value, p.db, Dir(p.db, entries'))))
  }

  /** Writing file `p` leaves every other path of the tree, in its directory or elsewhere, reading as it did. */
  lemma WriteFileOther(fs: FileSystem, p: Path, j: Json, q: Path)
    requires WriteFile(fs, p, j).Some? && q != p
    ensures Open(WriteFile(fs, p, j).value, q) == Open(fs, q)
  {
    var entries := Listing(Root(fs, p.area), p.db).value;
    if q.area == p.area && q.db == p.db && Find(entries, p.file).None? {
      FindAppend(entries, File(p.file, Some(j)), q.file);
    }
  }

  /**
   * `os.makedirs(os.path.join(root, name))` for a single component: fails when the path
   * exists; creates the root directory too when it is missing.
   */
  function MakeDir(root: Option<seq<Entry>>, name: string): (r: Option<seq<Entry>>)
    ensures r.Some? <==> !Exists(root, name)
    ensures r.Some? ==> Find(r.value, name) == Some(Dir(name, []))
  {
    if Exists(root, name) then None
    else
      var entries := if root.Some? then root.value else [];
      FindAppend(entries, Dir(name, []), name);
      Some(entries + [Dir(name, [])])
  }

  /** `os.makedirs` on `name` leaves every other entry of the root as it was. */
  lemma MakeDirOther(root: Option<seq<Entry>>, name: string, db: string)
    requires MakeDir(root, name).Some? && db != name
    ensures Listing(MakeDir(root, name), db) == Listing(root, db)
  {
    var entries := if root.Some? then root.value else [];
    FindAppend(entries, Dir(name, []), db);
  }

  /**
   * `os.rmdir(os.path.join(root, name))` on a path that exists: removes the directory when it
   * is empty; `None` (the call raises) when the entry is a file or a directory with entries.
   */
  function RemoveDir(entries: seq<Entry>, name: string): (r: Option<seq<Entry>>)
    ensures r.Some? <==> Find(entries, name) == Some(Dir(name, []))
    ensures r.Some? ==> |r.value| == |entries| - 1
    ensures r.Some? ==> forall n :: n != name ==> Find(r.value, n) == Find(entries, n)
    decreases |entries|
  {
    if entries == [] then None
    else if entries[0].name == name then
      if entries[0] == Dir(name, []) then Some(entries[1..]) else None
    else match RemoveDir(entries[1..], name)
      case None => None
      case Some(rest) => Some([entries[0]] + rest)
  }

  /** `os.rmdir` undoes `os.makedirs`: removing the directory just made gives back the old listing. */
  lemma {:induction false} RemoveDirMade(entries: seq<Entry>, name: string)
    requires Find(entries, name).None?
    ensures RemoveDir(entries + [Dir(name, [])], name) == Some(entries)
    decreases |entries|
  {
    if entries != [] {
      assert (entries + [Dir(name, [])])[1..] == entries[1..] + [Dir(name, [])];
      RemoveDirMade(entries[1..], name);
      assert [entries[0]] + entries[1..] == entries;
    }
  }

  /** The directory filter of `load_db`: sub-directories whose names do not start with `.`. */
  predicate IsDatabaseDir(e: Entry) {
    e.Dir? && !StartsWith(e.name, ".")
  }

  /** The database names `load_db` collects from a listing of `STRUCTURE_DIR`, in listing order. */
  function DatabaseNames(entries: seq<Entry>): (names: seq<string>)
    ensures |names| <= |entries|
    decreases |entries|
  {
    if entries == [] then []
    else
      var last := entries[|entries| - 1];
      DatabaseNames(entries[..|entries| - 1]) + (if IsDatabaseDir(last) then [last.name] else [])
  }

  /** `load_db`'s directory filter over a listing with one more entry at its end. */
  lemma DatabaseNamesAppend(entries: seq<Entry>, e: Entry)
    ensures DatabaseNames(entries + [e]) == DatabaseNames(entries) + (if IsDatabaseDir(e) then [e.name] else [])
  {
    assert (entries + [e])[..|entries|] == entries;
  }

  /** A name is listed exactly when some non-hidden directory of the listing carries it. */
  lemma {:induction false} DatabaseNamesMembers(entries: seq<Entry>, x: string)
    ensures x in DatabaseNames(entries) <==> exists e :: e in entries && IsDatabaseDir(e) && e.name == x
    decreases |entries|
  {
    if entries != [] {
      var init := entries[..|entries| - 1];
      var last := entries[|entries| - 1];
      DatabaseNamesMembers(init, x);
      assert entries == init + [last];
      if x in DatabaseNames(entries) && x !in DatabaseNames(init) {
        assert IsDatabaseDir(last) && last.name == x;
      }
      if exists e :: e in entries && IsDatabaseDir(e) && e.name == x {
        var e :| e in entries && IsDatabaseDir(e) && e.name == x;
        if e != last { assert e in init; }
      }
    }
  }

  /** `DATABASES` after `load_db`: empty when `STRUCTURE_DIR` cannot be listed. */
  function ListDatabases(root: Option<seq<Entry>>): seq<string> {
    if root.None? then [] else DatabaseNames(root.value)
  }
}
