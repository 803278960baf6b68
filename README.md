# sgbdr catalog, permission and command model

A Dafny model of the core of `sgbdr`, a small file-backed database shell written in Python.

- **`DBCore`** keeps three fields:
  - the selected database (`CURRENT_DB`);
  - the databases listed on disk (`DATABASES`);
  - the schemas of the selected database (`schemas`).
- The tree under `structure/` and `data/` holds:
  - one directory per database;
  - one `<table>_schema.json` and one `<table>_data.json` per table.
- **`create_table`** parses `name:type[:flags]` tokens into an ordered field list. A `notnull` or `required` flag needs a non-empty valid default even on a primary key (src/db_core.py:306-312). It checks:
  - the type;
  - the primary-key count;
  - the auto-increment and `notnull` rules;
  - any `default=` value, against the column type.
- **`User`** decides three things: who logs in, which permission list a user gets, and whether that list allows `c`, `r` or `d` on a database.
- **`main.py`** splits a command line and routes it. Routing depends on the root user or on the `PERMISSION` flags, which `get_perms` rebuilds after `USE`.

## Modules

| File | Module | What it models |
|---|---|---|
| `wrappers.dfy` | `Wrappers` | `Option` and `Result`. `None` and raised exceptions become `None` and `Err`. |
| `text.dfy` | `Text` | The Python string built-ins the source uses: `lower`, `upper`, `split(':')`, `split()`, `strip(c)`, `replace(p, "")`, `startswith` and `in`. |
| `type_validator.dfy` | `TypeValidator` | `_validate_type`, over the dynamic values `None`, `bool`, `int`, `float`, `str` and any other object. |
| `store.dfy` | `Store` | The directory tree, in memory, with each listing kept in `os.listdir` order. Also the two path helpers and the directory filter of `load_db`. |
| `schema.dfy` | `Schema` | The per-token parse of `create_table`, what the whole definition list accepts, and the JSON form of a field. |
| `db_core.dfy` | `DbCore` | The catalog as a value (`Catalog`) and the specification of each operation. The class `DBCore` is proved against them. |
| `users.dfy` | `Users` | `valid_user`, `get_permission` and `has_permision` over an already-parsed user list. |
| `cli.dfy` | `Cli` | `parse_command`, the routing of `execute_command`, `get_perms`, and a `Shell` object holding the logged-in user and `PERMISSION`. |

Each method of `DBCore` states its new state as a function of the old one: `State() == LoadDbSpec(old(State()))`, and similarly for the others. Lemmas about those functions state what the source promises. `Shell.ExecuteCommand` is tied to `ExecuteSpec` in the same way.

## Model

| member | source | states |
|---|---|---|
| `TypeValidator.IsIntLiteral` | src/db_core.py:205 | The strings `int()` parses, simplified: an optional sign, then at least one ASCII digit. |
| `TypeValidator.IsFloatLiteral` | src/db_core.py:216 | The strings `float()` parses, simplified: an optional sign, then `inf`, `infinity` or `nan` in any case, or a decimal mantissa with an optional exponent. |
| `TypeValidator.IsBoolLiteral` | src/db_core.py:226 | The strings whose lower case is `true`, `false`, `1` or `0`. |
| `TypeValidator.AcceptingTypes` | src/db_core.py:197-227 | The column types a value fits, value by value. `None` fits none; every other value fits `string`; `bool` fits all four; `int` fits `integer` and `float`; a float fits `float`; a string fits whichever literals it parses as. |
| `TypeValidator.ValidateType` | src/db_core.py:194-229 | The declared name is lower-cased and an unknown name rejects every value. A known type accepts a value exactly when the type is among the value's accepting types. That set is defined value by value: `None` fits nothing; everything else fits `string`; `bool` fits every type; `int` fits `integer` and `float`; a string fits whatever it parses as. |
| `TypeValidator.Accepts` | src/db_core.py:197-227 | The branch for each known type accepts a value exactly when the type is among the value's accepting types. |
| `TypeValidator.ParseColType` | src/db_core.py:241-261 | Exactly the four lower-case names `integer`, `string`, `float` and `boolean` are column types, and each maps back to its own name. |
| `TypeValidator.TypeNameRoundTrip` | src/db_core.py:241 | Naming a column type and looking the name up again gives the same type. |
| `TypeValidator.IntLiteralIsFloatLiteral` | src/db_core.py:200-220 | Every string the `integer` check parses is parsed by the `float` check too. |
| `TypeValidator.BooleanRejectsPlainInt` | src/db_core.py:200-227 | A non-bool `int` fails `boolean`. `True` and `False` pass `integer`, `float`, `boolean` and `string`. |
| `TypeValidator.DeclaredTypeIsCaseInsensitive` | src/db_core.py:195 | `INTEGER` validates exactly as `integer` does. |
| `TypeValidator.IntegerExamples` | src/db_core.py:200-209 | `"42"` and `"-3"` pass `integer`; `"4.2"` and `"abc"` fail it. |
| `Text.Split` | src/db_core.py:252 | `split(':')` yields at least one part, and no part contains the separator. |
| `Text.JoinSplit` | src/db_core.py:252 | Joining the parts of `split(':')` with `:` gives the token back. |
| `Text.RemoveAllSuffix` | src/db_core.py:39 | `replace(p, "")` on `t + p` gives `t`, when `t` does not contain `p` and the first character of `p` does not recur in `p`. |
| `Text.WordsJoinWords` | src/main.py:12 | `split()` on words joined by single spaces gives the words back. |
| `Store.TableNameOf` | src/db_core.py:40 | A schema file's table name is its file name with every `_schema.json` removed. |
| `Store.Listing` | src/db_core.py:37 | `os.listdir` of `root/db`: the directory's entries, `FileNotFoundError` when the root or the name is missing, and `NotADirectoryError` when the name is a file. The listing of the structure root at line 18 is modelled by `ListDatabases`. |
| `Store.Open` | src/db_core.py:43-44 | `open` then `json.load`, here and at lines 86-87: the parent listing's error, `FileNotFoundError` for a missing file, `IsADirectoryError` for a directory, or the file's content. Invalid JSON is a content of `None`. |
| `Store.Exists` | src/db_core.py:63 | `os.path.exists(root/name)`, here and at lines 140-141: the root exists and holds an entry of that name, file or directory. |
| `Store.ListDatabases` | src/db_core.py:16-28 | `DATABASES` after `load_db`: the non-hidden directory names in listing order, or `[]` when `STRUCTURE_DIR` cannot be listed. |
| `Store.SchemaPath` | src/db_core.py:69-72 | The schema path lies in the structure tree, under the database, and is named `<table>_schema.json`. |
| `Store.DataPath` | src/db_core.py:74-77 | The data path lies in the data tree, under the database, and is named `<table>_data.json`. |
| `Store.PathsAreDistinct` | src/db_core.py:69-77 | Different tables have different schema paths and different data paths, and no schema path is a data path. |
| `Store.TableNameOfSchemaFile` | src/db_core.py:39 | `load_db` gives a schema file the table name it was written for, when that name does not contain `_schema.json`. |
| `Store.WriteFile` | src/db_core.py:328-332 | `open(p, 'w')` fails exactly when the parent directory is missing or `p` is a directory. After a successful write, reading `p` gives the document written. |
| `Store.WriteFileOther` | src/db_core.py:328-332 | A write leaves every other path reading as it did, including the other files of the same directory. |
| `Store.MakeDir` | src/db_core.py:131-132 | `os.makedirs` fails exactly when the name already exists. Otherwise the new directory is present and empty. |
| `Store.MakeDirOther` | src/db_core.py:131-132 | `os.makedirs` leaves every other directory of the root as it was. |
| `Store.RemoveDir` | src/db_core.py:140-141 | `os.rmdir` succeeds exactly when the entry is an empty directory. It then removes one entry and leaves every other name as it was. |
| `Store.RemoveDirMade` | src/db_core.py:131-141 | Removing the directory `os.makedirs` just appended gives back the listing as it was before. |
| `Store.DatabaseNamesMembers` | src/db_core.py:18-23 | A name is collected exactly when some directory entry of `STRUCTURE_DIR` carries it and it does not start with `.`. |
| `Schema.ParseField` | src/db_core.py:252-319 | One token is lower-cased and split on `:`, then parsed into a field or the first error. |
| `Schema.ParseParts` | src/db_core.py:254-314 | The checks run in the source's order: fewer than two parts, unknown type, second primary key, `auto` without `pk`, `auto` on a non-integer, a default that does not fit, and `notnull` without a non-empty fitting default. |
| `Schema.ParseFields` | src/db_core.py:248-319 | The field list built from `fields_def` in order, with the primary-key count starting at zero, or the first error raised. |
| `Schema.FieldJson` | src/db_core.py:263-299 | The dictionary holds `column` and `type`, plus `primary_key`, `auto_increment` and `required` only when set, and `default` only when one is given. |
| `Schema.SchemaJson` | src/db_core.py:243-246 | The schema document is `{"name": table, "fields": [...]}`, with the fields in order. |
| `Schema.FirstDefault` | src/db_core.py:291-295 | The value of the first part that starts with `default=`, with `"` and then `'` stripped from both ends, or nothing when no part starts that way. |
| `Schema.FindDefault` | src/db_core.py:291-295 | The loop returns the default of the first part starting with `default=`, with the quotes stripped, or nothing when no part starts that way. |
| `Schema.ParseFieldOk` | src/db_core.py:252-314 | A token is accepted exactly when it passes every per-field check and is not a second primary key. An accepted field is a primary key exactly when the token carries `pk` or `primary_key`. |
| `Schema.ParseFieldsFromOk` | src/db_core.py:248-319 | From a given `pk_count`, a token list is accepted exactly when every token is valid and at most one primary key is seen in total. |
| `Schema.ParseFieldsOk` | src/db_core.py:250-319 | A definition list is accepted exactly when every token is valid and at most one token is a primary key. |
| `Schema.BadTokenRejects` | src/db_core.py:254-261 | One token with fewer than two parts, or with an unknown type, makes the whole definition fail. |
| `Schema.TwoPrimaryKeysReject` | src/db_core.py:268-274 | Two tokens carrying `pk` or `primary_key` make the definition fail. |
| `Schema.ParseFieldResult` | src/db_core.py:263-319 | An accepted field carries its token's name, type, flags and default. Its invariants hold: auto-increment implies primary key and `integer`; primary key implies required; a default fits the column type; required and not primary key implies a non-empty default. |
| `Schema.ParseFieldsFromResult` | src/db_core.py:248-319 | From a given `pk_count`, an accepted list has one field per token, in order, each declared by its token and well formed. There is at most one primary key, and none when one was seen before. |
| `Schema.ParseFieldsResult` | src/db_core.py:250-319 | The schema's field list has one entry per token, in declaration order. It keeps every field invariant and holds at most one primary key. |
| `Schema.FieldJsonRoundTrip` | src/db_core.py:263-299 | Reading back a field dictionary as `create_table` writes it gives the same field. |
| `DbCore.LoadFiles` | src/db_core.py:38-46 | Each schema file, in listing order, is loaded under its name with `_schema.json` removed. A directory or an unparseable file ends the loop, and the tables loaded before it are kept. |
| `DbCore.LoadSchemas` | src/db_core.py:35-55 | `schemas` is reset, then filled by `LoadFiles` over the selected database's schema directory. It stays empty when that directory cannot be listed. |
| `DbCore.LoadDbSpec` | src/db_core.py:14-55 | `DATABASES` becomes the directory names `load_db` collects. `schemas` is reloaded only when a database is selected, and is empty when its schema directory cannot be listed. |
| `DbCore.UseDbSpec` | src/db_core.py:57-66 | The name is always selected. The catalog is reloaded only when both its data and structure directories exist. |
| `DbCore.RmdirIfExists` | src/db_core.py:140-141 | `if os.path.exists(p): os.rmdir(p)`. A missing path leaves the root as it was, an empty directory is removed, and anything else raises. |
| `DbCore.RollBack` | src/db_core.py:138-141 | `rmdir` runs on `data/<name>`, then on `structure/<name>`, each only when it exists. An `rmdir` that raises ends the rollback, and an earlier removal stays done. |
| `DbCore.CreateDatabaseSpec` | src/db_core.py:120-142 | The empty name and a listed name are refused first. Then both directories are made and the catalog reloaded. When either `makedirs` fails, the error comes with the tree after `RollBack`. |
| `DbCore.ReadData` | src/db_core.py:79-99 | No selected database raises. A missing data file gives `[]`, invalid JSON raises, a JSON list gives its items, and any other document raises. |
| `DbCore.WriteTable` | src/db_core.py:324-332 | The schema file is written, then `[]` to the data file. A failed schema write leaves the tree unchanged. A failed data write keeps the schema file written. |
| `DbCore.CreateTableSpec` | src/db_core.py:231-340 | The checks run in the source's order: selection, empty name, existing table, field parse, empty field list. The schema and then the data file are written. When the data file cannot be written, the schema file stays written. Only success reloads the catalog. |
| `DbCore.LoadDbDatabases` | src/db_core.py:14-29 | After `load_db`, `DATABASES` holds exactly the names of the non-hidden directories of `STRUCTURE_DIR`. |
| `DbCore.LoadDbWithoutSelection` | src/db_core.py:31-34 | `load_db` never changes the tree or the selection. Without a selected database it keeps `schemas`. |
| `DbCore.LoadFilesAppend` | src/db_core.py:38-46 | Loading a listing with one more schema file maps that file's table name to its document, and leaves every earlier entry as it was. |
| `DbCore.UseDbSelects` | src/db_core.py:57-66 | `use_db` selects the name even when its directories are missing, and never changes the tree. When a directory is missing, the selection is the only change. |
| `DbCore.CreateDatabaseRejects` | src/db_core.py:120-129 | An empty name, or a name already in `DATABASES`, is refused and nothing changes. |
| `DbCore.CreateDatabaseCreates` | src/db_core.py:131-135 | A created database has an empty data directory and an empty structure directory, and the selection is kept. It is listed in `DATABASES` exactly when its name does not start with `.`. Every path outside the new database reads as before, and every other name is in `DATABASES` exactly when the old tree lists it. |
| `DbCore.CreatedTree` | src/db_core.py:131-135 | A successful call made both directories, and the new catalog is `load_db` over the new tree. |
| `DbCore.MadeDatabaseListed` | src/db_core.py:18-23 | After `makedirs` in `STRUCTURE_DIR`, `load_db` lists the new name unless it starts with `.`, and lists exactly the other names it listed before. |
| `DbCore.CreateDatabaseFails` | src/db_core.py:131-142 | A failed `create_database` with a new, non-empty name raises and changes only the tree. It fails only when an entry (file or directory) of that name already existed. Every path outside that name reads as before. A data directory the call made is gone again. When `data/<name>` exists but is not an empty directory, `rmdir` raises and nothing changes. |
| `DbCore.RollBackOther` | src/db_core.py:138-141 | The rollback touches no directory but the one named. |
| `DbCore.CreateDatabaseRemovesExistingEmptyDirectories` | src/db_core.py:128-141 | With empty `data/.x` and `structure/.x` already present, `create_database(".x")` passes the name check, because `load_db` never lists `.x`. The first `makedirs` fails and the rollback deletes both directories. |
| `DbCore.ReadDataCases` | src/db_core.py:79-95 | `_read_data` raises without a selected database and returns `[]` when the data file is absent. When the file exists, it succeeds exactly when the file holds a JSON list. |
| `DbCore.CreateTableRejects` | src/db_core.py:231-322 | Each of these failures raises with the catalog and the tree unchanged: no selected database, an empty name, a table already loaded, an empty definition list, an invalid token, or two primary keys. |
| `DbCore.CreateTableWrites` | src/db_core.py:324-336 | A successful `create_table` had a selected database, a new non-empty name and one well-formed field per token. It wrote that schema to the schema file and `[]` to the data file, and kept the selection. Every other file of the tree reads as before. |
| `DbCore.CreateTableThenReadData` | src/db_core.py:331-332 | A freshly created table reads back as an empty record list. |
| `DbCore.CreateTableRoundTrip` | src/db_core.py:324-336 | When the other schema files all load and none of them loads under the same name, the reload after a successful `create_table` puts the written schema at `schemas[table]` and keeps the other entries. |
| `DbCore.DBCore.constructor` | src/db_core.py:6-11 | Nothing is selected, listed or loaded. |
| `DbCore.DBCore.LoadDb` | src/db_core.py:14-55 | The new state is `LoadDbSpec` of the old one: the directory-filter loop and the schema-loading loop, which stops at the first unreadable file. |
| `DbCore.DBCore.UseDb` | src/db_core.py:57-66 | The new state is `UseDbSpec` of the old one. |
| `DbCore.DBCore.CreateDatabase` | src/db_core.py:120-142 | The result and the new state are `CreateDatabaseSpec` of the old state, rollback included. |
| `DbCore.DBCore.RollBackDirs` | src/db_core.py:138-141 | The new state is the old one with the tree passed through `RollBack`. |
| `DbCore.DBCore.CreateTable` | src/db_core.py:231-340 | The result and the new state are `CreateTableSpec` of the old state. |
| `DbCore.ParseFieldsDef` | src/db_core.py:248-319 | The loop over `fields_def`, counting primary keys, yields exactly the `ParseFields` outcome. |
| `DbCore.ParseToken` | src/db_core.py:252-319 | One loop iteration yields the field or the first error, as `ParseField` does for the same `pk_count`. |
| `Users.ValidUser` | src/user.py:22-34 | The answer is whether the first record matches both the name and the password. |
| `Users.ValidUserFixed` | src/user.py:29-34 | The answer is whether some record matches both the name and the password. |
| `Users.FirstRecordIsAnAccount` | src/user.py:29-34 | Every login the first-record check accepts is a real account. |
| `Users.SecondUserIsRejected` | src/user.py:29-34 | An account stored second is rejected by the first-record check. |
| `Users.PermissionsFor` | src/user.py:38-52 | Root gets `["ALL"]` without the file being read. Anyone else gets the last record's list, or `None` when the file holds no records. |
| `Users.OwnPermissions` | src/user.py:46-48 | The list of the last record that carries the name, or `None`. |
| `Users.GetPermission` | src/user.py:38-52 | Root gets `["ALL"]`. Anyone else gets the last record's list, or `None` when the list is empty. |
| `Users.PermissionsIgnoreName` | src/user.py:46-48 | For non-root users, the name asked about does not change the answer. |
| `Users.FirstUserGetsLastUsersPermissions` | src/user.py:46-48 | With two users on file, the first user receives the second user's list instead of their own. |
| `Users.GetPermissionFixed` | src/user.py:38-52 | Root gets `["ALL"]`. Anyone else gets the list of the last record carrying their name. |
| `Users.OwnPermissionsFound` | src/user.py:46-48 | A list is found exactly when some record carries the name. It is that record's list, and no later record carries the name. |
| `Users.Lookup` | src/user.py:58 | `base.get(database, "")`: the object's string for the database, or `""` when the database is not a key. |
| `Users.Scan` | src/user.py:57-61 | The entries are read in order. A bare string raises, the first object whose string for the database contains the permission answers true, and the end answers false. |
| `Users.Permits` | src/user.py:55-63 | `None` and `[]` raise, a first entry of `"ALL"` answers true, and anything else goes through `Scan`. |
| `Users.HasPermision` | src/user.py:55-63 | The result is `Permits`: it raises on `None` and on `[]`, allows everything when the first entry is `"ALL"`, and otherwise scans the entries in order. |
| `Users.ScanGrants` | src/user.py:57-61 | When every entry is an object, the scan answers whether some entry's string for the database contains the permission. |
| `Users.AllPermitsEverything` | src/user.py:56-63 | A list starting with `"ALL"` allows every permission on every database. |
| `Users.PermitsIff` | src/user.py:56-61 | When the list is all objects, a permission is allowed exactly when some object's string for the database contains it. |
| `Users.MissingDatabaseNeverGrants` | src/user.py:58-59 | When no object names the database, every non-empty permission is refused. |
| `Users.EmptyPermissionAlwaysGranted` | src/user.py:56-60 | The empty permission is granted by any list that opens with an object, because `""` occurs in every string. |
| `Users.RootPermitsEverything` | src/user.py:51-56 | The root user's list allows everything, whatever the user file holds. |
| `Cli.ParseCommand` | src/main.py:8-18 | The empty command gives `("", [])`, and a blank command raises. Otherwise the action is the first word in upper case and the arguments are the remaining words, in order. |
| `Cli.ParseCommandRoundTrip` | src/main.py:12-18 | Words joined by spaces parse back into the same action and arguments. |
| `Cli.Route` | src/main.py:20-190 | The branch `execute_command` takes, in the source's order: QUIT/EXIT, HELP, USE, CREATE, DELETE, GRANT, REVOKE, DROP, INSERT, SELECT, SHOW, SU, DESCRIBE, else a syntax error. |
| `Cli.RouteCreate` | src/main.py:60-83 | DATABASE is root only. USER needs `IDENTIFIED BY` and root, and a missing word raises. TABLE checks `c`. Anything else is a syntax error. |
| `Cli.RouteDelete` | src/main.py:86-98 | The `d` flag is checked first, then the two DELETE shapes. |
| `Cli.RouteDrop` | src/main.py:121-135 | DROP DATABASE is root only, DROP TABLE checks `d`, and anything else is a syntax error. |
| `Cli.RouteSelect` | src/main.py:146-158 | The `r` flag is checked first, then `SELECT c FROM t` or `SELECT c FROM t WHERE ...`. |
| `Cli.RouteShow` | src/main.py:162-174 | SHOW DATABASES is unchecked. SHOW TABLES checks `r` only when a database is selected. |
| `Cli.Gated` | src/main.py:76-184 | `if PERMISSION[key]:`. A missing key raises `KeyError`, a set flag leads to the call, and a cleared flag is refused. |
| `Cli.RootOnly` | src/main.py:62-66 | `if user.user == "root":`, here and at line 123. The root check of CREATE USER at line 68 is written inline in `RouteCreate`, after the IDENTIFIED/BY checks. Root reaches the call, and anyone else is refused. |
| `Cli.Refresh` | src/main.py:58 | `PERMISSION = get_perms()` after `USE db`, with `get_perms` calling `has_permision` on the user's list. |
| `Cli.RefreshAsWritten` | src/main.py:58 | The same rebuild as written, which always raises. |
| `Cli.Perform` | src/main.py:56-79 | Only USE, CREATE DATABASE and CREATE TABLE change the session. USE selects and, when the rebuild succeeds, replaces `PERMISSION`. A call that raises leaves the session as the call left it. |
| `Cli.ExecuteSpec` | src/main.py:20-202 | The loop continues unless the route is QUIT. A dispatched call is performed with `get_perms` calling `has_permision`. |
| `Cli.ExecuteAsWritten` | src/main.py:20-202 | As `ExecuteSpec`, but with the rebuild of `PERMISSION` that always raises. |
| `Cli.OnlyQuitStops` | src/main.py:23-195 | `execute_command` returns false exactly for `QUIT` and `EXIT`. |
| `Cli.RootCallsNeedRoot` | src/main.py:60-127 | CREATE DATABASE, CREATE USER and DROP DATABASE reach their call only for the root user. |
| `Cli.GatedCallsNeedFlag` | src/main.py:75-187 | Each flag-checked call is reached only when its flag is set: `c` for CREATE TABLE and INSERT; `d` for DELETE and DROP TABLE; `r` for SELECT, DESCRIBE and, with a database selected, SHOW TABLES. |
| `Cli.EmptyPermissionRaises` | src/main.py:75-187 | With `PERMISSION` empty, no flag-checked call is ever reached. |
| `Cli.DeleteRouting` | src/main.py:86-98 | `delete_data(t, c)` is reached exactly when `d` is set and either `* FROM t` passes an empty condition or `FROM t WHERE ...` passes the words after `WHERE`. |
| `Cli.GrantRouting` | src/main.py:100-107 | GRANT reaches `grant_perms` exactly on the five-word shape with `ON` and `TO`. Neither the user nor a flag is checked. |
| `Cli.RevokeRouting` | src/main.py:110-117 | REVOKE reaches `revoke_perm` exactly on the same shape. |
| `Cli.CreateTableRouting` | src/main.py:75-81 | CREATE TABLE reaches `create_table` exactly when `c` is set. It passes the second word as the table and all later words as field definitions. |
| `Cli.GetPermsAsWritten` | src/main.py:197-202 | `get_perms` as written always raises. |
| `Cli.GetPerms` | src/main.py:197-202 | The corrected `get_perms` succeeds exactly when all three checks answer. It then has exactly the keys `c`, `r` and `d`, each holding its check's answer. |
| `Cli.RootPermsAllSet` | src/main.py:197-202 | For the root user, all three flags are set. |
| `Cli.PermissionChangesOnlyOnUse` | src/main.py:56-58 | Only a one-argument USE changes `PERMISSION`, and only when every check of `get_perms` answers. |
| `Cli.UserIsKept` | src/main.py:177-180 | No command changes the logged-in user or their permission list. |
| `Cli.NonRootCannotCreateDatabase` | src/main.py:60-66 | A non-root CREATE DATABASE leaves the whole session unchanged. |
| `Cli.PermissionFrozenAsWritten` | src/main.py:56-58 | As written, no command changes `PERMISSION`. |
| `Cli.RootCannotCreateTableAsWritten` | src/main.py:75-81 | As written, root runs `USE db` and then CREATE TABLE raises, because `PERMISSION` is still empty. |
| `Cli.RootCreatesTableAfterUse` | src/main.py:56-81 | With the corrected `get_perms`, root runs `USE db` and then CREATE TABLE reaches `create_table`. |
| `Cli.Shell.constructor` | src/main.py:6 | Nobody is logged in and `PERMISSION` is empty. |
| `Cli.Shell.LogIn` | src/user.py:11-20 | On a valid account, the user and their own permission list are recorded. It uses the corrected `ValidUserFixed` and `GetPermissionFixed` (see Findings), not the as-written checks. On a failed attempt nothing changes. |
| `Cli.Shell.ExecuteCommand` | src/main.py:20-195 | The continue flag and the new session are `ExecuteSpec` of the old session. |

## Left out

- **File I/O.** All of it is an in-memory tree: `os.listdir`, `os.makedirs`, `open`, `json.load` and `json.dump`.
  - A file either holds a parsed document or is invalid JSON. JSON floats are not represented, so a file holding one is not modelled.
  - Listing order is whatever order the tree stores.
  - Paths have a single component under each root. Names that contain `/`, or are `.` or `..`, are not modelled.
- **Exception classes.** Every failure is one `Err` value, and the printed messages are not modelled.
  - When an `os.rmdir` in the rollback of `create_database` raises, its error replaces the one from `os.makedirs`. The model reports `CannotCreate` either way.
  - The duplicate-table branch of `create_table` refers to `self.current_db`, which does not exist, so the source raises `AttributeError` there. The model reports `AlreadyExists`.
- **`_write_data`.** It passes two arguments to the one-argument `_get_data_path`, so it always raises. No modelled operation calls it.
- **Rendering and the interactive loop.** `show_tables`, `show_databases`, the help text and every `print` are left out, and so are `start_cli` and its input loop.
- Cli.Shell.LogIn: models a single login attempt with the name and password already read. The `input`/`getpass` prompts and the recursive retry are left out.
- **Undefined calls.** These are routed but have no effect, because the source does not define them or defines them as `pass`:
  - the record operations `insert_data` and `delete_data`;
  - `drop_database`, `drop_table`, `select_data` and `describe_table`;
  - `create_new`, `grant_perms`, `revoke_perm` and `switch_user`.
- **Unused stubs.** `select_all` and `update_data` are `pass` stubs that no command calls, so nothing models them.
- TypeValidator.ValidateType: the `int()` grammar is simplified to an optional sign and ASCII digits. The `float()` grammar is simplified to a sign, then `inf`/`infinity`/`nan` or a decimal with an optional exponent. Surrounding whitespace, underscores and non-ASCII digits are not accepted. Float values themselves are not modelled.
- TypeValidator.IsIntLiteral: simplified `int()` grammar, as in the line above. Surrounding whitespace, underscores and non-ASCII digits are refused.
- TypeValidator.IsFloatLiteral: simplified `float()` grammar, as in the line above. Surrounding whitespace, underscores and non-ASCII digits are refused.
- Text.Lower: handles ASCII letters only.
- Text.Upper: handles ASCII letters only.
- Text.Words: splits on the ASCII characters `split()` treats as whitespace only. The non-ASCII ones (`\x85`, `\xa0`, the Unicode spaces and line separators) are not modelled.
- Users.HasPermision: a permission object's value is taken to be a string, and `in` is substring search. A JSON list there, where `in` means membership, is not modelled. Records that lack a key, which make `valid_user` and `get_permission` print and return `None`, are not modelled.

## Findings

| source | as written | input that shows it | evidently intended | confidence | as-written member | corrected member |
|---|---|---|---|---|---|---|
| src/user.py:29-34 | `return False` sits inside the loop, so only the first record of `users.json` is compared | records `root/toor` then `alice/secret`; `valid_user("alice", "secret")` is false | `return False` after the loop, so that any record may match | high, not executed | `Users.ValidUser`, `Users.SecondUserIsRejected` | `Users.ValidUserFixed`, used by `Cli.Shell.LogIn` |
| src/user.py:46-48 | the loop variable `user` shadows the argument, and `perms` keeps the last record's `permisson` | records `alice` with `{"shop": "r"}`, then `bob` with `{"shop": "crd"}`; `get_permission("alice")` returns bob's list | return the list of the record whose name is the argument | high, not executed | `Users.GetPermission`, `Users.FirstUserGetsLastUsersPermissions` | `Users.GetPermissionFixed`, `Users.OwnPermissionsFound`, used by `Cli.Shell.LogIn` |
| src/main.py:198-200 | `get_perms` calls `user.has_permission`, but the method is named `has_permision`, so every call raises and `PERMISSION` stays `{}` | root: `USE shop`, then `CREATE TABLE t id:integer:pk` raises `KeyError` on `PERMISSION["c"]` | call `has_permision` | high, not executed | `Cli.GetPermsAsWritten`, `Cli.RootCannotCreateTableAsWritten` | `Cli.GetPerms`, `Cli.RootCreatesTableAfterUse`, used by `Cli.Shell.ExecuteCommand` |
