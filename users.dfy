/**
 * The permission logic of `User` (src/user.py): whether a name and password log in, which
 * permission list a user receives, and whether that list allows an action on a database.
 * The user list is the already-parsed content of `user/users.json`.
 */
module Users {
  import opened Wrappers
  import opened Text

  /**
   * One element of a user's permission list: a bare string such as `"ALL"`, or an object
   * mapping database names to permission letters (`{"shop": "cr"}`).
   */
  datatype PermEntry = Tag(tag: string) | Grants(byDb: map<string, string>)

  /** A record of `users.json`; `permisson` is the file's own spelling of the key. */
  datatype UserRecord = UserRecord(name: string, password: string, permisson: seq<PermEntry>)

  /** Why `has_permision` raises instead of answering. */
  datatype PermError =
    | NoPermissionList            // `user_permission` is `None`: subscripting it raises
    | EmptyPermissionList         // `user_permission[0]` on `[]`
    | NotAMapping(entry: PermEntry)  // `.get` on a bare string entry

  const RootName := "root"
  const All := Tag("ALL")

  // ---------------------------------------------------------------------------------------
  // valid_user

  /** What `valid_user` decides: the loop returns on its first record, whatever it holds. */
  predicate FirstRecordMatches(users: seq<UserRecord>, name: string, password: string) {
    |users| > 0 && users[0].name == name && users[0].password == password
  }

  /** Some record carries both the name and the password. */
  predicate HasAccount(users: seq<UserRecord>, name: string, password: string) {
    exists i :: 0 <= i < |users| && users[i].name == name && users[i].password == password
  }

  /**
   * `valid_user(name, password)` as written: both returns sit inside the loop, so only the
   * first record is looked at. On an empty list the function falls off its end and returns
   * `None`, which its caller reads as false. The loop never reaches a second iteration,
   * so it is written here as a test of the first record.
   */
  method ValidUser(users: seq<UserRecord>, name: string, password: string) returns (ok: bool)
    ensures ok == FirstRecordMatches(users, name, password)
  {
    if |users| > 0 {
      var user := users[0];
      if user.name == name && user.password == password {
        return true;
      }
      return false;
    }
    ok := false;
  }

  /** `valid_user` with `return False` after the loop: any record may match. */
  method ValidUserFixed(users: seq<UserRecord>, name: string, password: string) returns (ok: bool)
    ensures ok == HasAccount(users, name, password)
  {
    var i := 0;
    while i < |users|
      invariant 0 <= i <= |users|
      invariant forall j :: 0 <= j < i ==> !(users[j].name == name && users[j].password == password)
    {
      if users[i].name == name && users[i].password == password {
        return true;
      }
      i := i + 1;
    }
    ok := false;
  }

  /** What the first-record check accepts, the account check accepts too. */
  lemma FirstRecordIsAnAccount(users: seq<UserRecord>, name: string, password: string)
    requires FirstRecordMatches(users, name, password)
    ensures HasAccount(users, name, password)
  {
    assert users[0].name == name && users[0].password == password;
  }

  /** A user stored second cannot log in with the source's `valid_user`. */
  lemma SecondUserIsRejected()
    ensures var users := [UserRecord("root", "toor", [All]), UserRecord("alice", "secret", [])];
            !FirstRecordMatches(users, "alice", "secret") && HasAccount(users, "alice", "secret")
  {
    var users := [UserRecord("root", "toor", [All]), UserRecord("alice", "secret", [])];
    assert users[1].name == "alice" && users[1].password == "secret";
  }

  // ---------------------------------------------------------------------------------------
  // get_permission

  /**
   * The permission list `get_permission` hands out. The root user gets `["ALL"]` without the
   * list being read. For anyone else the loop variable shadows the argument, so `perms` ends
   * up holding the last record's list; on an empty list `perms` is unbound, the error is
   * caught, and the result is `None`.
   */
  function PermissionsFor(users: seq<UserRecord>, user: string): Option<seq<PermEntry>> {
    if user == RootName then Some([All])
    else if users == [] then None
    else Some(users[|users| - 1].permisson)
  }

  /** `get_permission(user)` as written. */
  method GetPermission(users: seq<UserRecord>, user: string) returns (r: Option<seq<PermEntry>>)
    ensures r == PermissionsFor(users, user)
  {
    if user != RootName {
      var perms: Option<seq<PermEntry>> := None;
      for i := 0 to |users|
        invariant perms == if i == 0 then None else Some(users[i - 1].permisson)
      {
        perms := Some(users[i].permisson);
      }
      return perms;
    } else {
      return Some([All]);
    }
  }

  /** Outside root, the name asked about plays no part in the answer. */
  lemma PermissionsIgnoreName(users: seq<UserRecord>, a: string, b: string)
    requires a != RootName && b != RootName
    ensures PermissionsFor(users, a) == PermissionsFor(users, b)
  {
  }

  /** With two users on file, the first one receives the second one's permissions. */
  lemma FirstUserGetsLastUsersPermissions()
    ensures var users := [UserRecord("alice", "a", [Grants(map["shop" := "r"])]),
                          UserRecord("bob", "b", [Grants(map["shop" := "crd"])])];
            PermissionsFor(users, "alice") == Some([Grants(map["shop" := "crd"])])
            && OwnPermissions(users, "alice") == Some([Grants(map["shop" := "r"])])
  {
    var users := [UserRecord("alice", "a", [Grants(map["shop" := "r"])]),
                  UserRecord("bob", "b", [Grants(map["shop" := "crd"])])];
    assert users[..|users| - 1] == [users[0]];
    assert [users[0]][..0] == [];
  }

  /** The permission list of the last record named `user`, if any. */
  function OwnPermissions(users: seq<UserRecord>, user: string): Option<seq<PermEntry>>
    decreases |users|
  {
    if users == [] then None
    else if users[|users| - 1].name == user then Some(users[|users| - 1].permisson)
    else OwnPermissions(users[..|users| - 1], user)
  }

  /** `OwnPermissions` finds a record exactly when one carries the name, and returns its list. */
  lemma {:induction false} OwnPermissionsFound(users: seq<UserRecord>, user: string)
    ensures OwnPermissions(users, user).Some? <==> exists i :: 0 <= i < |users| && users[i].name == user
    ensures OwnPermissions(users, user).Some? ==>
              exists i :: 0 <= i < |users| && users[i].name == user
                          && OwnPermissions(users, user).value == users[i].permisson
                          && forall j :: i < j < |users| ==> users[j].name != user
    decreases |users|
  {
    if users != [] {
      var n := |users| - 1;
      var front := users[..n];
      OwnPermissionsFound(front, user);
      if users[n].name != user {
        if exists i :: 0 <= i < |users| && users[i].name == user {
          var i :| 0 <= i < |users| && users[i].name == user;
          assert front[i].name == user;
        }
        if OwnPermissions(users, user).Some? {
          var i :| 0 <= i < |front| && front[i].name == user
                   && OwnPermissions(front, user).value == front[i].permisson
                   && forall j :: i < j < |front| ==> front[j].name != user;
          assert users[i] == front[i];
        }
      }
    }
  }

  /** `get_permission` with the loop looking for the record that carries the name. */
  method GetPermissionFixed(users: seq<UserRecord>, user: string) returns (r: Option<seq<PermEntry>>)
    ensures user == RootName ==> r == Some([All])
    ensures user != RootName ==> r == OwnPermissions(users, user)
  {
    if user == RootName {
      return Some([All]);
    }
    r := None;
    for i := 0 to |users|
      invariant r == OwnPermissions(users[..i], user)
    {
      assert users[..i + 1][..i] == users[..i];
      if users[i].name == user {
        r := Some(users[i].permisson);
      }
    }
    assert users[..|users|] == users;
  }

  // ---------------------------------------------------------------------------------------
  // has_permision

  /** `entry.get(database, "")`; a database of `None` is never a key. */
  function Lookup(byDb: map<string, string>, database: Option<string>): string {
    if database.Some? && database.value in byDb then byDb[database.value] else ""
  }

  /** The entry is an object whose string for `database` contains `perm`. */
  predicate EntryGrants(e: PermEntry, database: Option<string>, perm: string) {
    e.Grants? && Contains(Lookup(e.byDb, database), perm)
  }

  /** The loop of `has_permision`: the first granting entry answers true, a bare string raises. */
  function Scan(entries: seq<PermEntry>, database: Option<string>, perm: string): Result<bool, PermError> {
    if entries == [] then Ok(false)
    else if entries[0].Tag? then Err(NotAMapping(entries[0]))
    else if EntryGrants(entries[0], database, perm) then Ok(true)
    else Scan(entries[1..], database, perm)
  }

  /** What `has_permision(database, perm)` returns or raises for the list `perms`. */
  function Permits(perms: Option<seq<PermEntry>>, database: Option<string>, perm: string): Result<bool, PermError> {
    match perms
    case None => Err(NoPermissionList)
    case Some(p) =>
      if p == [] then Err(EmptyPermissionList)
      else if p[0] == All then Ok(true)
      else Scan(p, database, perm)
  }

  /** `has_permision(database, perm)` */
  method HasPermision(perms: Option<seq<PermEntry>>, database: Option<string>, perm: string)
    returns (r: Result<bool, PermError>)
    ensures r == Permits(perms, database, perm)
  {
    if perms.None? {
      return Err(NoPermissionList);
    }
    var p := perms.value;
    if p == [] {
      return Err(EmptyPermissionList);
    }
    if p[0] != All {
      var i := 0;
      while i < |p|
        invariant 0 <= i <= |p|
        invariant Scan(p, database, perm) == Scan(p[i..], database, perm)
      {
        assert p[i..][0] == p[i] && p[i..][1..] == p[i + 1..];
        var base := p[i];
        if base.Tag? {
          return Err(NotAMapping(base));
        }
        var permissions := Lookup(base.byDb, database);
        if Contains(permissions, perm) {
          return Ok(true);
        }
        i := i + 1;
      }
      return Ok(false);
    } else {
      return Ok(true);
    }
  }

  /** Over object entries only, the loop answers whether some entry grants. */
  lemma {:induction false} ScanGrants(entries: seq<PermEntry>, database: Option<string>, perm: string)
    requires forall i :: 0 <= i < |entries| ==> entries[i].Grants?
    ensures Scan(entries, database, perm) == Ok(exists i :: 0 <= i < |entries| && EntryGrants(entries[i], database, perm))
    decreases |entries|
  {
    if entries != [] {
      var rest := entries[1..];
      ScanGrants(rest, database, perm);
      if !EntryGrants(entries[0], database, perm) {
        if exists i :: 0 <= i < |entries| && EntryGrants(entries[i], database, perm) {
          var i :| 0 <= i < |entries| && EntryGrants(entries[i], database, perm);
          assert rest[i - 1] == entries[i];
        }
        if exists i :: 0 <= i < |rest| && EntryGrants(rest[i], database, perm) {
          var i :| 0 <= i < |rest| && EntryGrants(rest[i], database, perm);
          assert entries[i + 1] == rest[i];
        }
      }
    }
  }

  /** A list opening with `"ALL"` allows everything on every database. */
  lemma AllPermitsEverything(p: seq<PermEntry>, database: Option<string>, perm: string)
    requires p != [] && p[0] == All
    ensures Permits(Some(p), database, perm) == Ok(true)
  {
  }

  /**
   * A list of objects allows `perm` on `database` exactly when some object's string for
   * `database` contains `perm`.
   */
  lemma PermitsIff(p: seq<PermEntry>, database: Option<string>, perm: string)
    requires p != [] && forall i :: 0 <= i < |p| ==> p[i].Grants?
    ensures Permits(Some(p), database, perm) == Ok(exists i :: 0 <= i < |p| && EntryGrants(p[i], database, perm))
  {
    ScanGrants(p, database, perm);
  }

  /** No object naming the database: a non-empty permission is refused. */
  lemma MissingDatabaseNeverGrants(p: seq<PermEntry>, database: string, perm: string)
    requires p != [] && forall i :: 0 <= i < |p| ==> p[i].Grants? && database !in p[i].byDb
    requires perm != ""
    ensures Permits(Some(p), Some(database), perm) == Ok(false)
  {
    PermitsIff(p, Some(database), perm);
    forall i | 0 <= i < |p|
      ensures !EntryGrants(p[i], Some(database), perm)
    {
      NothingInEmpty(perm);
    }
  }

  /**
   * `has_permision(db, "")` on a list that opens with an object is true: `"" in s` holds for
   * every string, including the `""` that `.get` returns for a missing database.
   */
  lemma EmptyPermissionAlwaysGranted(p: seq<PermEntry>, database: Option<string>)
    requires p != [] && p[0].Grants?
    ensures Permits(Some(p), database, "") == Ok(true)
  {
    EmptyOccursEverywhere(Lookup(p[0].byDb, database));
  }

  /** The root user is allowed everything, whatever the user list holds. */
  lemma RootPermitsEverything(users: seq<UserRecord>, database: Option<string>, perm: string)
    ensures Permits(PermissionsFor(users, RootName), database, perm) == Ok(true)
  {
  }
}
