/**
 * The command line of src/main.py: splitting a command into an action and its arguments,
 * routing the action to a catalog call behind the root check or the `PERMISSION` flags, and
 * the `PERMISSION` map that `get_perms` rebuilds after `USE`.
 */
module Cli {
  import opened Wrappers
  import opened Text
  import opened Users
  import opened DbCore

  // ---------------------------------------------------------------------------------------
  // parse_command

  /**
   * `parse_command(command)`: `("", [])` for the empty string; otherwise the first
   * whitespace-separated word in upper case and the remaining words. A command made only of
   * whitespace has no first word and raises (`None`).
   */
  function ParseCommand(command: string): (r: Option<(string, seq<string>)>)
    ensures r.None? <==> command != "" && Words(command) == []
    ensures command == "" ==> r == Some(("", []))
    ensures r.Some? && command != "" ==>
              r.value.0 == Upper(Words(command)[0]) && r.value.1 == Words(command)[1..]
  {
    if command == "" then Some(("", []))
    else
      var parts := Words(command);
      if parts == [] then None else Some((Upper(parts[0]), parts[1..]))
  }

  /** Words joined by single spaces parse back into the action and the arguments. */
  lemma ParseCommandRoundTrip(action: string, args: seq<string>)
    requires action != "" && NoSpace(action) && Upper(action) == action
    requires forall k :: 0 <= k < |args| ==> args[k] != "" && NoSpace(args[k])
    ensures ParseCommand(JoinWords([action] + args)) == Some((action, args))
  {
    var ws := [action] + args;
    assert forall k :: 0 <= k < |ws| ==> ws[k] != "" && NoSpace(ws[k]);
    WordsJoinWords(ws);
    assert ws[1..] == args;
  }

  // ---------------------------------------------------------------------------------------
  // execute_command: routing

  /** The condition handed to `delete_data` and `select_data`: `""`, or the words after WHERE. */
  datatype Condition = NoCondition | Where(tokens: seq<string>)

  /** A call `execute_command` makes on `db_core` or `user`. */
  datatype Call =
    | UseDb(name: string)
    | CreateDatabase(name: string)
    | CreateUser(name: string, password: string)
    | CreateTable(table: string, fieldsDef: seq<string>)
    | DeleteData(table: string, condition: Condition)
    | Grant(perm: string, database: string, user: string)
    | Revoke(perm: string, database: string, user: string)
    | DropDatabase(name: string)
    | DropTable(table: string)
    | InsertData(table: string, values: seq<string>)
    | SelectData(table: string, condition: Condition, columns: string)
    | ShowDatabases
    | ShowTables
    | SwitchUser(name: string)
    | DescribeTable(table: string)

  /**
   * Where `execute_command` ends: it stops the loop, prints the help, makes a call, refuses
   * for want of permission, reports a syntax error, or catches an exception raised before
   * any call (a missing `PERMISSION` key, an argument index out of range).
   */
  datatype Outcome = Quit | Help | Dispatch(call: Call) | PermissionDenied | SyntaxError | Raised

  const CreateFlag := "c"
  const ReadFlag := "r"
  const DeleteFlag := "d"

  predicate IsRoot(user: Option<string>) {
    user == Some(RootName)
  }

  /** `PERMISSION[key]` holds. */
  predicate Allowed(permission: map<string, bool>, key: string) {
    key in permission && permission[key]
  }

  /** `if PERMISSION[key]: <allowed> else: <denied>`; a missing key raises. */
  function Gated(permission: map<string, bool>, key: string, allowed: Outcome): Outcome {
    if key !in permission then Raised
    else if permission[key] then allowed
    else PermissionDenied
  }

  function RootOnly(user: Option<string>, call: Call): Outcome {
    if IsRoot(user) then Dispatch(call) else PermissionDenied
  }

  /** `CREATE DATABASE | USER | TABLE ...`, with at least two arguments. */
  function RouteCreate(args: seq<string>, user: Option<string>, permission: map<string, bool>): Outcome
    requires |args| >= 2
  {
    var kind := Upper(args[0]);
    if kind == "DATABASE" then RootOnly(user, CreateDatabase(args[1]))
    else if kind == "USER" then
      // A USER line whose third or fourth word is wrong falls through to the final `else`.
      if |args| < 3 then Raised
      else if Upper(args[2]) != "IDENTIFIED" then SyntaxError
      else if |args| < 4 then Raised
      else if Upper(args[3]) != "BY" then SyntaxError
      else if !IsRoot(user) then PermissionDenied
      else if |args| < 5 then Raised
      else Dispatch(CreateUser(args[1], args[4]))
    else if kind == "TABLE" then Gated(permission, CreateFlag, Dispatch(CreateTable(args[1], args[2..])))
    else SyntaxError
  }

  /** `DELETE * FROM t` or `DELETE FROM t WHERE ...`, checked after the delete permission. */
  function RouteDelete(args: seq<string>, permission: map<string, bool>): Outcome {
    Gated(permission, DeleteFlag,
      if |args| == 3 && args[0] == "*" && Upper(args[1]) == "FROM" then Dispatch(DeleteData(args[2], NoCondition))
      else if |args| > 3 && Upper(args[0]) == "FROM" && Upper(args[2]) == "WHERE" then Dispatch(DeleteData(args[1], Where(args[3..])))
      else SyntaxError)
  }

  /** `<perm> ON <database> TO <user>`, the shape GRANT and REVOKE accept. */
  predicate GrantShape(args: seq<string>) {
    |args| == 5 && Upper(args[1]) == "ON" && Upper(args[3]) == "TO"
  }

  /** `DROP DATABASE | TABLE <name>`, with exactly two arguments. */
  function RouteDrop(args: seq<string>, user: Option<string>, permission: map<string, bool>): Outcome
    requires |args| == 2
  {
    var kind := Upper(args[0]);
    if kind == "DATABASE" then RootOnly(user, DropDatabase(args[1]))
    else if kind == "TABLE" then Gated(permission, DeleteFlag, Dispatch(DropTable(args[1])))
    else SyntaxError
  }

  /** `SELECT <cols> FROM t [WHERE ...]`, checked after the read permission. */
  function RouteSelect(args: seq<string>, permission: map<string, bool>): Outcome {
    Gated(permission, ReadFlag,
      if |args| == 3 && Upper(args[1]) == "FROM" then Dispatch(SelectData(args[2], NoCondition, args[0]))
      else if |args| >= 5 && Upper(args[1]) == "FROM" && Upper(args[3]) == "WHERE" then Dispatch(SelectData(args[2], Where(args[4..]), args[0]))
      else SyntaxError)
  }

  /** `SHOW DATABASES | TABLES`; listing tables needs the read permission only once a database is selected. */
  function RouteShow(arg: string, permission: map<string, bool>, dbSelected: bool): Outcome {
    var kind := Upper(arg);
    if kind == "DATABASES" then Dispatch(ShowDatabases)
    else if kind == "TABLES" then
      if dbSelected then Gated(permission, ReadFlag, Dispatch(ShowTables)) else Dispatch(ShowTables)
    else SyntaxError
  }

  /**
   * The branch `execute_command(action, args)` takes for the logged-in `user`, the current
   * `PERMISSION` map, and whether a database is selected.
   */
  function Route(action: string, args: seq<string>, user: Option<string>, permission: map<string, bool>, dbSelected: bool): Outcome {
    if action == "QUIT" || action == "EXIT" then Quit
    else if action == "HELP" then Help
    else if action == "USE" && |args| == 1 then Dispatch(UseDb(args[0]))
    else if action == "CREATE" && |args| >= 2 then RouteCreate(args, user, permission)
    else if action == "DELETE" then RouteDelete(args, permission)
    else if action == "GRANT" then
      if GrantShape(args) then Dispatch(Grant(args[0], args[2], args[4])) else SyntaxError
    else if action == "REVOKE" then
      if GrantShape(args) then Dispatch(Revoke(args[0], args[2], args[4])) else SyntaxError
    else if action == "DROP" && |args| == 2 then RouteDrop(args, user, permission)
    else if action == "INSERT" && |args| >= 3 && Upper(args[0]) == "INTO" then
      Gated(permission, CreateFlag, Dispatch(InsertData(args[1], args[2..])))
    else if action == "SELECT" then RouteSelect(args, permission)
    else if action == "SHOW" && |args| == 1 then RouteShow(args[0], permission, dbSelected)
    else if action == "SU" && |args| == 1 then Dispatch(SwitchUser(args[0]))
    else if action == "DESCRIBE" && |args| == 1 then Gated(permission, ReadFlag, Dispatch(DescribeTable(args[0])))
    else SyntaxError
  }

  /** Calls only the root user can reach. */
  predicate RootCall(c: Call) {
    c.CreateDatabase? || c.CreateUser? || c.DropDatabase?
  }

  /** The `PERMISSION` key a call is checked against, when it is checked against one. */
  function FlagOf(c: Call, dbSelected: bool): Option<string> {
    if c.CreateTable? || c.InsertData? then Some(CreateFlag)
    else if c.DeleteData? || c.DropTable? then Some(DeleteFlag)
    else if c.SelectData? || c.DescribeTable? || (c.ShowTables? && dbSelected) then Some(ReadFlag)
    else None
  }

  /** CREATE DATABASE, CREATE USER and DROP DATABASE reach their call only for root. */
  lemma RootCallsNeedRoot(action: string, args: seq<string>, user: Option<string>, permission: map<string, bool>, dbSelected: bool)
    requires Route(action, args, user, permission, dbSelected).Dispatch?
    requires RootCall(Route(action, args, user, permission, dbSelected).call)
    ensures IsRoot(user)
  {
  }

  /** A call checked against a `PERMISSION` flag is made only when that flag is set. */
  lemma GatedCallsNeedFlag(action: string, args: seq<string>, user: Option<string>, permission: map<string, bool>, dbSelected: bool)
    requires Route(action, args, user, permission, dbSelected).Dispatch?
    requires FlagOf(Route(action, args, user, permission, dbSelected).call, dbSelected).Some?
    ensures Allowed(permission, FlagOf(Route(action, args, user, permission, dbSelected).call, dbSelected).value)
  {
  }

  /** With `PERMISSION` empty, as it starts, every flag-checked command raises before its call. */
  lemma EmptyPermissionRaises(action: string, args: seq<string>, user: Option<string>, dbSelected: bool)
    requires Route(action, args, user, map[], dbSelected).Dispatch?
    ensures FlagOf(Route(action, args, user, map[], dbSelected).call, dbSelected).None?
  {
    if FlagOf(Route(action, args, user, map[], dbSelected).call, dbSelected).Some? {
      GatedCallsNeedFlag(action, args, user, map[], dbSelected);
    }
  }

  /** Which DELETE lines reach `delete_data`, and with which table and condition. */
  lemma DeleteRouting(args: seq<string>, user: Option<string>, permission: map<string, bool>, dbSelected: bool, table: string, condition: Condition)
    ensures Route("DELETE", args, user, permission, dbSelected) == Dispatch(DeleteData(table, condition)) <==>
              Allowed(permission, DeleteFlag)
              && ((|args| == 3 && args[0] == "*" && Upper(args[1]) == "FROM" && table == args[2] && condition == NoCondition)
                  || (|args| > 3 && Upper(args[0]) == "FROM" && Upper(args[2]) == "WHERE" && table == args[1] && condition == Where(args[3..])))
  {
  }

  /** GRANT reaches `grant_perms` on the five-word shape alone; no user or flag is checked. */
  lemma GrantRouting(args: seq<string>, user: Option<string>, permission: map<string, bool>, dbSelected: bool, perm: string, database: string, grantee: string)
    ensures Route("GRANT", args, user, permission, dbSelected) == Dispatch(Grant(perm, database, grantee)) <==>
              GrantShape(args) && perm == args[0] && database == args[2] && grantee == args[4]
  {
  }

  /** REVOKE reaches `revoke_perm` on the same shape as GRANT. */
  lemma RevokeRouting(args: seq<string>, user: Option<string>, permission: map<string, bool>, dbSelected: bool, perm: string, database: string, grantee: string)
    ensures Route("REVOKE", args, user, permission, dbSelected) == Dispatch(Revoke(perm, database, grantee)) <==>
              GrantShape(args) && perm == args[0] && database == args[2] && grantee == args[4]
  {
  }

  /** CREATE TABLE passes the table name and every later word as field definitions. */
  lemma CreateTableRouting(args: seq<string>, user: Option<string>, permission: map<string, bool>, dbSelected: bool, table: string, fieldsDef: seq<string>)
    ensures Route("CREATE", args, user, permission, dbSelected) == Dispatch(CreateTable(table, fieldsDef)) <==>
              |args| >= 2 && Upper(args[0]) == "TABLE" && Allowed(permission, CreateFlag)
              && table == args[1] && fieldsDef == args[2..]
  {
  }

  // ---------------------------------------------------------------------------------------
  // get_perms

  /** Why rebuilding `PERMISSION` raises. */
  datatype PermsError = CheckFailed(why: PermError) | UndefinedMethod(name: string)

  /**
   * `get_perms()` as written: it calls `user.has_permission`, a name `User` does not define
   * (the method is spelled `has_permision`), so every call raises.
   */
  function GetPermsAsWritten(perms: Option<seq<PermEntry>>, currentDb: Option<string>): (r: Result<map<string, bool>, PermsError>)
    ensures r.Err?
  {
    Err(UndefinedMethod("has_permission"))
  }

  /**
   * `get_perms()` calling `has_permision`: the create, read and delete answers for the
   * current database, in that order; the first check that raises ends it.
   */
  function GetPerms(perms: Option<seq<PermEntry>>, currentDb: Option<string>): (r: Result<map<string, bool>, PermsError>)
    ensures r.Ok? <==> Permits(perms, currentDb, CreateFlag).Ok? && Permits(perms, currentDb, ReadFlag).Ok?
                       && Permits(perms, currentDb, DeleteFlag).Ok?
    ensures r.Ok? ==> r.value.Keys == {CreateFlag, ReadFlag, DeleteFlag}
    ensures r.Ok? ==> forall k :: k in r.value ==> r.value[k] == Permits(perms, currentDb, k).value
  {
    match Permits(perms, currentDb, CreateFlag)
    case Err(e) => Err(CheckFailed(e))
    case Ok(createP) =>
      match Permits(perms, currentDb, ReadFlag)
      case Err(e) => Err(CheckFailed(e))
      case Ok(readP) =>
        match Permits(perms, currentDb, DeleteFlag)
        case Err(e) => Err(CheckFailed(e))
        case Ok(deleteP) => Ok(map[CreateFlag := createP, ReadFlag := readP, DeleteFlag := deleteP])
  }

  /** The root user's map sets all three flags. */
  lemma RootPermsAllSet(users: seq<UserRecord>, currentDb: Option<string>)
    ensures GetPerms(PermissionsFor(users, RootName), currentDb)
            == Ok(map[CreateFlag := true, ReadFlag := true, DeleteFlag := true])
  {
    var m := GetPerms(PermissionsFor(users, RootName), currentDb).value;
    assert m.Keys == map[CreateFlag := true, ReadFlag := true, DeleteFlag := true].Keys;
  }

  // ---------------------------------------------------------------------------------------
  // execute_command: effect on the session

  /**
   * What the command loop works on: the catalog, the logged-in user and the permission list
   * `get_permission` gave them, and the global `PERMISSION`.
   */
  datatype Session = Session(catalog: Catalog, user: Option<string>, userPermission: Option<seq<PermEntry>>, permission: map<string, bool>)

  /**
   * The session after `call`, where `refresh(db)` is what rebuilding `PERMISSION` after
   * `USE db` gives. The record operations are empty, showing only prints, and the user
   * management, drop, select and describe methods are not defined, so those calls change
   * nothing. An error raised inside a call is caught with the session as the call left it.
   */
  function Perform(s: Session, call: Call, refresh: string -> Result<map<string, bool>, PermsError>): Session {
    match call
    case UseDb(name) =>
      var c := UseDbSpec(s.catalog, name);
      if refresh(name).Ok? then s.(catalog := c, permission := refresh(name).value) else s.(catalog := c)
    case CreateDatabase(name) => s.(catalog := CreateDatabaseSpec(s.catalog, name).1)
    case CreateTable(table, fieldsDef) => s.(catalog := CreateTableSpec(s.catalog, table, fieldsDef).1)
    case _ => s
  }

  /** `PERMISSION` after `USE db`, rebuilt with `get_perms` calling `has_permision`. */
  function Refresh(s: Session): string -> Result<map<string, bool>, PermsError> {
    db => GetPerms(s.userPermission, Some(db))
  }

  /** `PERMISSION` after `USE db` as written: the rebuild always raises. */
  function RefreshAsWritten(s: Session): string -> Result<map<string, bool>, PermsError> {
    db => GetPermsAsWritten(s.userPermission, Some(db))
  }

  /** `execute_command(action, args)`: whether the loop goes on, and the session after it. */
  function ExecuteSpec(s: Session, action: string, args: seq<string>): (bool, Session) {
    var o := Route(action, args, s.user, s.permission, Selected(s.catalog.currentDb));
    (!o.Quit?, if o.Dispatch? then Perform(s, o.call, Refresh(s)) else s)
  }

  /** `execute_command` as written, with the rebuild of `PERMISSION` that always raises. */
  function ExecuteAsWritten(s: Session, action: string, args: seq<string>): (bool, Session) {
    var o := Route(action, args, s.user, s.permission, Selected(s.catalog.currentDb));
    (!o.Quit?, if o.Dispatch? then Perform(s, o.call, RefreshAsWritten(s)) else s)
  }

  /** The command loop stops exactly on QUIT and EXIT. */
  lemma OnlyQuitStops(s: Session, action: string, args: seq<string>)
    ensures !ExecuteSpec(s, action, args).0 <==> action == "QUIT" || action == "EXIT"
  {
  }

  /** Only USE changes `PERMISSION`, and only when every check of `get_perms` answers. */
  lemma PermissionChangesOnlyOnUse(s: Session, action: string, args: seq<string>)
    ensures ExecuteSpec(s, action, args).1.permission != s.permission ==>
              action == "USE" && |args| == 1 && GetPerms(s.userPermission, Some(args[0])).Ok?
  {
  }

  /** Neither the user nor their permission list changes under any command. */
  lemma UserIsKept(s: Session, action: string, args: seq<string>)
    ensures ExecuteSpec(s, action, args).1.user == s.user
    ensures ExecuteSpec(s, action, args).1.userPermission == s.userPermission
  {
  }

  /** A non-root user's CREATE DATABASE leaves the whole session as it was. */
  lemma NonRootCannotCreateDatabase(s: Session, args: seq<string>)
    requires !IsRoot(s.user) && |args| >= 2 && Upper(args[0]) == "DATABASE"
    ensures ExecuteSpec(s, "CREATE", args) == (true, s)
  {
  }

  /** As written, `PERMISSION` never changes, whatever the command. */
  lemma PermissionFrozenAsWritten(s: Session, action: string, args: seq<string>)
    ensures ExecuteAsWritten(s, action, args).1.permission == s.permission
  {
    var o := Route(action, args, s.user, s.permission, Selected(s.catalog.currentDb));
    if o.Dispatch? && o.call.UseDb? {
      assert RefreshAsWritten(s)(o.call.name).Err?;
    }
  }

  /**
   * As written, root selects a database and then cannot create a table in it: `PERMISSION`
   * is still empty, so reading its create flag raises.
   */
  lemma RootCannotCreateTableAsWritten(s: Session, db: string, table: string, fieldsDef: seq<string>)
    requires s.user == Some(RootName) && s.permission == map[]
    ensures var s1 := ExecuteAsWritten(s, "USE", [db]).1;
            Route("CREATE", ["TABLE", table] + fieldsDef, s1.user, s1.permission, Selected(s1.catalog.currentDb)) == Raised
  {
    PermissionFrozenAsWritten(s, "USE", [db]);
    var args := ["TABLE", table] + fieldsDef;
    assert Upper(args[0]) == "TABLE";
  }

  /** Root selects a database and can then create a table in it. */
  lemma RootCreatesTableAfterUse(s: Session, db: string, table: string, fieldsDef: seq<string>)
    requires s.user == Some(RootName) && s.userPermission == Some([All])
    ensures var s1 := ExecuteSpec(s, "USE", [db]).1;
            Route("CREATE", ["TABLE", table] + fieldsDef, s1.user, s1.permission, Selected(s1.catalog.currentDb))
            == Dispatch(CreateTable(table, fieldsDef))
  {
    var s1 := ExecuteSpec(s, "USE", [db]).1;
    assert GetPerms(s.userPermission, Some(db)) == Ok(map[CreateFlag := true, ReadFlag := true, DeleteFlag := true]) by {
      var m := GetPerms(s.userPermission, Some(db)).value;
      assert m.Keys == map[CreateFlag := true, ReadFlag := true, DeleteFlag := true].Keys;
    }
    assert s1.permission[CreateFlag];
    var args := ["TABLE", table] + fieldsDef;
    assert Upper(args[0]) == "TABLE" && args[2..] == fieldsDef;
  }

  // ---------------------------------------------------------------------------------------
  // The session object

  /** The globals of src/main.py around `db_core`: the logged-in user and `PERMISSION`. */
  class Shell {
    const core: DBCore
    var user: Option<string>
    var userPermission: Option<seq<PermEntry>>
    var permission: map<string, bool>

    function Snapshot(): Session
      reads this, core
    {
      Session(core.State(), user, userPermission, permission)
    }

    /** Nobody logged in and `PERMISSION = {}`. */
    constructor (core: DBCore)
      ensures this.core == core
      ensures user == None && userPermission == None && permission == map[]
    {
      this.core := core;
      user := None;
      userPermission := None;
      permission := map[];
    }

    /**
     * One attempt of `user_log_in` with the name and password already typed: on success the
     * user and their permission list are recorded; on failure nothing changes.
     */
    method LogIn(users: seq<UserRecord>, name: string, password: string) returns (ok: bool)
      modifies this
      ensures ok == HasAccount(users, name, password)
      ensures ok ==> user == Some(name)
      ensures ok && name == RootName ==> userPermission == Some([All])
      ensures ok && name != RootName ==> userPermission == OwnPermissions(users, name)
      ensures !ok ==> user == old(user) && userPermission == old(userPermission)
      ensures permission == old(permission)
    {
      ok := ValidUserFixed(users, name, password);
      if ok {
        user := Some(name);
        userPermission := GetPermissionFixed(users, name);
      }
    }

    /** `execute_command(action, args)` */
    method ExecuteCommand(action: string, args: seq<string>) returns (running: bool)
      modifies this, core
      ensures (running, Snapshot()) == ExecuteSpec(old(Snapshot()), action, args)
    {
      ghost var s := Snapshot();
      var outcome := Route(action, args, user, permission, Selected(core.currentDb));
      running := !outcome.Quit?;
      if outcome.Dispatch? {
        match outcome.call
        case UseDb(name) =>
          core.UseDb(name);
          var refreshed := GetPerms(userPermission, core.currentDb);
          if refreshed.Ok? {
            permission := refreshed.value;
          }
        case CreateDatabase(name) =>
          var _ := core.CreateDatabase(name);
        case CreateTable(table, fieldsDef) =>
          var _ := core.CreateTable(table, fieldsDef);
        case _ =>
      }
    }
  }
}
