/**
 * The field-definition language of `DBCore.create_table`: each token `name:type[:flags]`
 * is lower-cased and split on `:`; flags are found by membership among ALL the parts,
 * so a column literally called `pk` is a primary key.
 */
module Schema {
  import opened Wrappers
  import opened Text
  import opened TypeValidator
  import opened Store

  /** One entry of a schema's `fields` list. */
  datatype FieldDef = FieldDef(
    column: string,
    colType: ColType,
    primaryKey: bool,
    autoIncrement: bool,
    required: bool,
    default: Option<string>)

  /** Why a field token is refused; each stands for the `ValueError`/`TypeError` the loop raises. */
  datatype FieldError =
    | MalformedField(token: string)
    | InvalidType(column: string, typeName: string)
    | MultiplePrimaryKeys(column: string)
    | AutoIncrementWithoutPrimaryKey(column: string)
    | AutoIncrementNotInteger(column: string)
    | InvalidDefault(column: string, value: string)
    | RequiredWithoutDefault(column: string)

  /** `field_str.lower().split(':')` */
  function Parts(token: string): seq<string> {
    Split(Lower(token), ':')
  }

  predicate HasPkFlag(parts: seq<string>) { "pk" in parts || "primary_key" in parts }
  predicate HasAutoFlag(parts: seq<string>) { "auto" in parts || "auto_increment" in parts }
  predicate HasRequiredFlag(parts: seq<string>) { "notnull" in parts || "required" in parts }

  const DefaultPrefix := "default="

  /** `part.split('=', 1)[1].strip('"').strip("'")` for a part that starts with `default=`. */
  function DefaultOf(part: string): string
    requires StartsWith(part, DefaultPrefix)
  {
    Strip(Strip(part[|DefaultPrefix|..], '"'), '\'')
  }

  /** Index of the first part starting with `default=`, or `|parts|` when there is none. */
  function DefaultIndex(parts: seq<string>): (k: nat)
    ensures k <= |parts|
    ensures forall j :: 0 <= j < k ==> !StartsWith(parts[j], DefaultPrefix)
    ensures k < |parts| ==> StartsWith(parts[k], DefaultPrefix)
    decreases |parts|
  {
    if parts == [] || StartsWith(parts[0], DefaultPrefix) then 0
    else 1 + DefaultIndex(parts[1..])
  }

  /** The default the token declares: that of the FIRST part starting with `default=`. */
  function FirstDefault(parts: seq<string>): Option<string> {
    var k := DefaultIndex(parts);
    if k < |parts| then Some(DefaultOf(parts[k])) else None
  }

  /** The `for part in parts: if part.startswith('default='): ...; break` loop. */
  method FindDefault(parts: seq<string>) returns (d: Option<string>)
    ensures d == FirstDefault(parts)
  {
    d := None;
    var i := 0;
    while i < |parts|
      invariant 0 <= i <= |parts|
      invariant forall j :: 0 <= j < i ==> !StartsWith(parts[j], DefaultPrefix)
      invariant d.None?
    {
      if StartsWith(parts[i], DefaultPrefix) {
        DefaultIndexIs(parts, i);
        d := Some(DefaultOf(parts[i]));
        break;
      }
      i := i + 1;
    }
    if d.None? {
      DefaultIndexIs(parts, i);
    }
  }

  /** The index of the first `default=` part is pinned down by the parts before it and at it. */
  lemma DefaultIndexIs(parts: seq<string>, i: nat)
    requires i <= |parts|
    requires forall j :: 0 <= j < i ==> !StartsWith(parts[j], DefaultPrefix)
    requires i < |parts| ==> StartsWith(parts[i], DefaultPrefix)
    ensures DefaultIndex(parts) == i
  {
  }

  /**
   * One iteration of `create_table`'s loop: `pkSeen` says whether an earlier token was a
   * primary key (`pk_count` is then 1). The checks run in the source's order.
   */
  function ParseField(token: string, pkSeen: bool): Result<FieldDef, FieldError> {
    ParseParts(Parts(token), token, pkSeen)
  }

  /** `ParseField` once the token is split into `parts`. */
  function ParseParts(parts: seq<string>, token: string, pkSeen: bool): Result<FieldDef, FieldError> {
    if |parts| < 2 then Err(MalformedField(token))
    else
      var column, typeName := parts[0], parts[1];
      match ParseColType(typeName)
      case None => Err(InvalidType(column, typeName))
      case Some(ty) =>
        var isPk := HasPkFlag(parts);
        var isAuto := HasAutoFlag(parts);
        if isPk && pkSeen then Err(MultiplePrimaryKeys(column))
        else if isAuto && !isPk then Err(AutoIncrementWithoutPrimaryKey(column))
        else if isAuto && ty != IntegerType then Err(AutoIncrementNotInteger(column))
        else
          var default := FirstDefault(parts);
          if default.Some? && !ValidateType(StrValue(default.value), typeName) then
            Err(InvalidDefault(column, default.value))
          else if HasRequiredFlag(parts)
                  && !(default.Some? && default.value != "" && ValidateType(StrValue(default.value), typeName)) then
            Err(RequiredWithoutDefault(column))
          else
            Ok(FieldDef(column, ty, isPk, isAuto, isPk || HasRequiredFlag(parts), default))
  }

  /** The whole loop over `fields_def`, from a state where `pkSeen` records `pk_count > 0`. */
  function ParseFieldsFrom(tokens: seq<string>, pkSeen: bool): Result<seq<FieldDef>, FieldError>
    decreases |tokens|
  {
    if tokens == [] then Ok([])
    else
      match ParseField(tokens[0], pkSeen)
      case Err(e) => Err(e)
      case Ok(f) =>
        match ParseFieldsFrom(tokens[1..], pkSeen || f.primaryKey)
        case Err(e) => Err(e)
        case Ok(fs) => Ok([f] + fs)
  }

  /** The field list `create_table` builds from `fields_def`, or the first error it raises. */
  function ParseFields(tokens: seq<string>): Result<seq<FieldDef>, FieldError> {
    ParseFieldsFrom(tokens, false)
  }

  /** A token that passes every check on its own (the primary-key count aside). */
  predicate TokenValid(token: string) {
    PartsValid(Parts(token))
  }

  /** `TokenValid` once the token is split into `parts`. */
  predicate PartsValid(parts: seq<string>) {
    var default := FirstDefault(parts);
    && |parts| >= 2
    && ParseColType(parts[1]).Some?
    && (HasAutoFlag(parts) ==> HasPkFlag(parts) && parts[1] == "integer")
    && (default.Some? ==> ValidateType(StrValue(default.value), parts[1]))
    && (HasRequiredFlag(parts) ==> default.Some? && default.value != "")
  }

  /** How many tokens carry `pk` or `primary_key`. */
  function PkTokenCount(tokens: seq<string>): nat
    decreases |tokens|
  {
    if tokens == [] then 0
    else (if HasPkFlag(Parts(tokens[0])) then 1 else 0) + PkTokenCount(tokens[1..])
  }

  /** One token is accepted exactly when it is valid and not a second primary key. */
  lemma ParseFieldOk(token: string, pkSeen: bool)
    ensures ParseField(token, pkSeen).Ok? <==> TokenValid(token) && !(pkSeen && HasPkFlag(Parts(token)))
    ensures ParseField(token, pkSeen).Ok? ==> ParseField(token, pkSeen).value.primaryKey == HasPkFlag(Parts(token))
  {
    ParsePartsOk(Parts(token), token, pkSeen);
  }

  /** `ParseFieldOk` for a token already split into `parts`. */
  lemma ParsePartsOk(parts: seq<string>, token: string, pkSeen: bool)
    ensures ParseParts(parts, token, pkSeen).Ok? <==> PartsValid(parts) && !(pkSeen && HasPkFlag(parts))
    ensures ParseParts(parts, token, pkSeen).Ok? ==> ParseParts(parts, token, pkSeen).value.primaryKey == HasPkFlag(parts)
  {
    if |parts| >= 2 && ParseColType(parts[1]).Some? {
      TypeNameRoundTrip(ParseColType(parts[1]).value);
    }
  }

  /**
   * The loop succeeds exactly when every token is valid on its own and at most one token
   * (counting an earlier one when `pkSeen`) declares a primary key.
   */
  lemma {:induction false} ParseFieldsFromOk(tokens: seq<string>, pkSeen: bool)
    ensures ParseFieldsFrom(tokens, pkSeen).Ok? <==>
              (forall i :: 0 <= i < |tokens| ==> TokenValid(tokens[i]))
              && PkTokenCount(tokens) + (if pkSeen then 1 else 0) <= 1
    decreases |tokens|
  {
    if tokens != [] {
      ParseFieldOk(tokens[0], pkSeen);
      var isPk := HasPkFlag(Parts(tokens[0]));
      ParseFieldsFromOk(tokens[1..], pkSeen || isPk);
      assert forall i :: 1 <= i < |tokens| ==> tokens[i] == tokens[1..][i - 1];
    }
  }

  /** `create_table` accepts a definition list exactly when every token is valid and at most one is a primary key. */
  lemma ParseFieldsOk(tokens: seq<string>)
    ensures ParseFields(tokens).Ok? <==>
              (forall i :: 0 <= i < |tokens| ==> TokenValid(tokens[i])) && PkTokenCount(tokens) <= 1
  {
    ParseFieldsFromOk(tokens, false);
  }

  /** A token with too few parts or an unknown type makes the whole definition fail. */
  lemma BadTokenRejects(tokens: seq<string>, i: int)
    requires 0 <= i < |tokens|
    requires |Parts(tokens[i])| < 2 || ParseColType(Parts(tokens[i])[1]).None?
    ensures ParseFields(tokens).Err?
  {
    ParseFieldsOk(tokens);
  }

  /** Two primary-key tokens make the definition fail. */
  lemma {:induction false} TwoPrimaryKeysReject(tokens: seq<string>, i: int, j: int)
    requires 0 <= i < j < |tokens|
    requires HasPkFlag(Parts(tokens[i])) && HasPkFlag(Parts(tokens[j]))
    ensures ParseFields(tokens).Err?
  {
    PkCountAtLeastTwo(tokens, i, j);
    ParseFieldsOk(tokens);
  }

  lemma {:induction false} PkCountAtLeastTwo(tokens: seq<string>, i: int, j: int)
    requires 0 <= i < j < |tokens|
    requires HasPkFlag(Parts(tokens[i])) && HasPkFlag(Parts(tokens[j]))
    ensures PkTokenCount(tokens) >= 2
    decreases |tokens|
  {
    if i > 0 {
      PkCountAtLeastTwo(tokens[1..], i - 1, j - 1);
    } else {
      PkCountAtLeastOne(tokens[1..], j - 1);
    }
  }

  lemma {:induction false} PkCountAtLeastOne(tokens: seq<string>, j: int)
    requires 0 <= j < |tokens|
    requires HasPkFlag(Parts(tokens[j]))
    ensures PkTokenCount(tokens) >= 1
    decreases |tokens|
  {
    if j > 0 {
      PkCountAtLeastOne(tokens[1..], j - 1);
    }
  }

  /** How many fields are primary keys. */
  function PkFieldCount(fields: seq<FieldDef>): nat
    decreases |fields|
  {
    if fields == [] then 0
    else (if fields[0].primaryKey then 1 else 0) + PkFieldCount(fields[1..])
  }

  /** The per-field invariants a schema built by `create_table` keeps. */
  predicate FieldWellFormed(f: FieldDef) {
    && (f.autoIncrement ==> f.primaryKey && f.colType == IntegerType)
    && (f.primaryKey ==> f.required)
    && (f.default.Some? ==> ValidateType(StrValue(f.default.value), TypeName(f.colType)))
    && (f.required && !f.primaryKey ==> f.default.Some? && f.default.value != "")
  }

  /** The invariants of a whole schema: each field's, and at most one primary key. */
  predicate WellFormed(fields: seq<FieldDef>) {
    PkFieldCount(fields) <= 1 && forall k :: 0 <= k < |fields| ==> FieldWellFormed(fields[k])
  }

  /** Field `f` is what token `token` declares: its name, its type, its flags and its default. */
  predicate Declares(f: FieldDef, token: string) {
    var parts := Parts(token);
    && |parts| >= 2
    && f.column == parts[0]
    && TypeName(f.colType) == parts[1]
    && f.primaryKey == HasPkFlag(parts)
    && f.autoIncrement == HasAutoFlag(parts)
    && f.required == (HasPkFlag(parts) || HasRequiredFlag(parts))
    && f.default == FirstDefault(parts)
    && (HasRequiredFlag(parts) ==> f.default.Some? && f.default.value != "")
  }

  /** A field the loop accepts is the one its token declares, and keeps the per-field invariants. */
  lemma ParseFieldResult(token: string, pkSeen: bool)
    requires ParseField(token, pkSeen).Ok?
    ensures Declares(ParseField(token, pkSeen).value, token)
    ensures FieldWellFormed(ParseField(token, pkSeen).value)
    ensures pkSeen ==> !ParseField(token, pkSeen).value.primaryKey
  {
    var parts := Parts(token);
    TypeNameRoundTrip(ParseColType(parts[1]).value);
  }

  /**
   * On success the field list has one entry per token, in declaration order, each the field
   * its token declares, and it keeps the schema invariants; after an earlier primary key
   * (`pkSeen`) it holds none.
   */
  lemma {:induction false} ParseFieldsFromResult(tokens: seq<string>, pkSeen: bool)
    requires ParseFieldsFrom(tokens, pkSeen).Ok?
    ensures var fields := ParseFieldsFrom(tokens, pkSeen).value;
            && |fields| == |tokens|
            && (forall k :: 0 <= k < |fields| ==> Declares(fields[k], tokens[k]) && FieldWellFormed(fields[k]))
            && PkFieldCount(fields) + (if pkSeen then 1 else 0) <= 1
    decreases |tokens|
  {
    if tokens != [] {
      var f := ParseField(tokens[0], pkSeen).value;
      ParseFieldResult(tokens[0], pkSeen);
      ParseFieldsFromResult(tokens[1..], pkSeen || f.primaryKey);
      var rest := ParseFieldsFrom(tokens[1..], pkSeen || f.primaryKey).value;
      var fields := [f] + rest;
      assert ParseFieldsFrom(tokens, pkSeen).value == fields;
      assert fields[1..] == rest;
      forall k | 1 <= k < |fields|
        ensures Declares(fields[k], tokens[k]) && FieldWellFormed(fields[k])
      {
        assert fields[k] == rest[k - 1] && tokens[k] == tokens[1..][k - 1];
      }
    }
  }

  /** `create_table`'s field list: one field per token in order, the schema invariants kept. */
  lemma ParseFieldsResult(tokens: seq<string>)
    requires ParseFields(tokens).Ok?
    ensures |ParseFields(tokens).value| == |tokens|
    ensures forall k :: 0 <= k < |tokens| ==> Declares(ParseFields(tokens).value[k], tokens[k])
    ensures WellFormed(ParseFields(tokens).value)
  {
    ParseFieldsFromResult(tokens, false);
  }

  /** A JSON boolean flag that is present only when set, as `create_table` writes them. */
  function FlagEntry(m: map<string, Json>, key: string, set_: bool): map<string, Json> {
    if set_ then m[key := JBool(true)] else m
  }

  /** The dictionary `create_table` writes for one field. */
  function FieldJson(f: FieldDef): Json {
    var base := map["column" := JStr(f.column), "type" := JStr(TypeName(f.colType))];
    var withFlags := FlagEntry(FlagEntry(FlagEntry(base, "primary_key", f.primaryKey), "required", f.required),
                               "auto_increment", f.autoIncrement);
    JObject(if f.default.Some? then withFlags["default" := JStr(f.default.value)] else withFlags)
  }

  /** `new_schema = {"name": table_name, "fields": [...]}` */
  function SchemaJson(table: string, fields: seq<FieldDef>): Json {
    JObject(map["name" := JStr(table),
                "fields" := JList(seq(|fields|, k requires 0 <= k < |fields| => FieldJson(fields[k])))])
  }

  predicate Flag(m: map<string, Json>, key: string) {
    key in m && m[key] == JBool(true)
  }

  /** Reads a field dictionary back. */
  function FieldOfJson(j: Json): Option<FieldDef> {
    if !j.JObject? then None
    else
      var m := j.fields;
      if "column" in m && m["column"].JStr? && "type" in m && m["type"].JStr?
         && ParseColType(m["type"].s).Some? then
        Some(FieldDef(m["column"].s, ParseColType(m["type"].s).value,
                      Flag(m, "primary_key"), Flag(m, "auto_increment"), Flag(m, "required"),
                      if "default" in m && m["default"].JStr? then Some(m["default"].s) else None))
      else None
  }

  /** The schema file keeps every field exactly: reading a written field dictionary gives the field back. */
  lemma FieldJsonRoundTrip(f: FieldDef)
    ensures FieldOfJson(FieldJson(f)) == Some(f)
  {
    TypeNameRoundTrip(f.colType);
  }
}
