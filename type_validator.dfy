/**
 * `DBCore._validate_type`: whether a dynamic value is acceptable for a declared column type.
 * Python's dynamic values are a closed tagged variant here; `bool` is a subclass of `int`
 * in Python, which the `integer` and `float` checks inherit.
 */
module TypeValidator {
  import opened Wrappers
  import opened Text

  /** A Python value as the validator sees it: `None`, `bool`, `int`, `float`, `str`, or any other object. */
  datatype Value = NoneValue | BoolValue(b: bool) | IntValue(i: int) | FloatValue | StrValue(s: string) | OtherValue

  /** The four column types of `VALID_TYPES`. */
  datatype ColType = IntegerType | StringType | FloatType | BooleanType

  function TypeName(t: ColType): string {
    match t
    case IntegerType => "integer"
    case StringType => "string"
    case FloatType => "float"
    case BooleanType => "boolean"
  }

  /** The exact-name lookup `column_type in VALID_TYPES`: only the four lower-case names are types. */
  function ParseColType(name: string): (r: Option<ColType>)
    ensures r.Some? <==> name in {"integer", "string", "float", "boolean"}
    ensures r.Some? ==> TypeName(r.value) == name
  {
    if name == "integer" then Some(IntegerType)
    else if name == "string" then Some(StringType)
    else if name == "float" then Some(FloatType)
    else if name == "boolean" then Some(BooleanType)
    else None
  }

  /** Naming a type and parsing the name back gives the type. */
  lemma TypeNameRoundTrip(t: ColType)
    ensures ParseColType(TypeName(t)) == Some(t)
  {
  }

  predicate IsDigit(c: char) { '0' <= c <= '9' }

  predicate AllDigits(s: string) {
    forall i :: 0 <= i < |s| ==> IsDigit(s[i])
  }

  /** Drops one leading `+` or `-`. */
  function DropSign(s: string): (r: string)
    ensures r == s || (s != [] && r == s[1..] && (s[0] == '+' || s[0] == '-'))
  {
    if s != [] && (s[0] == '+' || s[0] == '-') then s[1..] else s
  }

  /**
   * The strings `int()` parses, simplified to base-10: an optional sign followed by
   * at least one ASCII digit.
   */
  predicate IsIntLiteral(s: string) {
    var digits := DropSign(s);
    digits != [] && AllDigits(digits)
  }

  /** Index of the first `e` or `E` in `s`, or `|s|` when there is none. */
  function ExponentIndex(s: string): (k: nat)
    ensures k <= |s|
    ensures forall i :: 0 <= i < k ==> s[i] != 'e' && s[i] != 'E'
    ensures k < |s| ==> s[k] == 'e' || s[k] == 'E'
    decreases |s|
  {
    if s == [] then 0
    else if s[0] == 'e' || s[0] == 'E' then 0
    else 1 + ExponentIndex(s[1..])
  }

  /** Index of the first `.` in `s`, or `|s|` when there is none. */
  function DotIndex(s: string): (k: nat)
    ensures k <= |s|
    ensures forall i :: 0 <= i < k ==> s[i] != '.'
    ensures k < |s| ==> s[k] == '.'
    decreases |s|
  {
    if s == [] then 0
    else if s[0] == '.' then 0
    else 1 + DotIndex(s[1..])
  }

  /** `digits`, `digits.`, `digits.digits` or `.digits`. */
  predicate IsMantissa(m: string) {
    var d := DotIndex(m);
    if d == |m| then m != [] && AllDigits(m)
    else AllDigits(m[..d]) && AllDigits(m[d + 1..]) && (d > 0 || d + 1 < |m|)
  }

  /**
   * The strings `float()` parses, simplified: an optional sign, then `inf`, `infinity` or
   * `nan` in any case, or a decimal mantissa with an optional exponent `e[sign]digits`.
   */
  predicate IsFloatLiteral(s: string) {
    var body := DropSign(s);
    Lower(body) in {"inf", "infinity", "nan"} ||
    var k := ExponentIndex(body);
    if k == |body| then IsMantissa(body)
    else IsMantissa(body[..k]) && IsIntLiteral(body[k + 1..])
  }

  /** The strings the `boolean` check accepts: `true`, `false`, `1` or `0` in any case. */
  predicate IsBoolLiteral(s: string) {
    Lower(s) in {"true", "false", "1", "0"}
  }

  /**
   * The column types a value is acceptable for, stated value by value (an independent
   * reading of the validator's rules): `None` fits nothing; every other value fits `string`;
   * `bool` fits every type; `int` fits `integer` and `float`; strings fit whatever they parse as.
   */
  function AcceptingTypes(v: Value): set<ColType> {
    match v
    case NoneValue => {}
    case BoolValue(_) => {IntegerType, StringType, FloatType, BooleanType}
    case IntValue(_) => {IntegerType, StringType, FloatType}
    case FloatValue => {StringType, FloatType}
    case StrValue(s) =>
      {StringType}
      + (if IsIntLiteral(s) then {IntegerType} else {})
      + (if IsFloatLiteral(s) then {FloatType} else {})
      + (if IsBoolLiteral(s) then {BooleanType} else {})
    case OtherValue => {StringType}
  }

  /** `AcceptingTypes`, read one type at a time. */
  lemma AcceptingTypesOf(t: ColType, v: Value)
    ensures t in AcceptingTypes(v) <==>
              match t
              case StringType => !v.NoneValue?
              case IntegerType => v.IntValue? || v.BoolValue? || (v.StrValue? && IsIntLiteral(v.s))
              case FloatType => v.IntValue? || v.FloatValue? || v.BoolValue? || (v.StrValue? && IsFloatLiteral(v.s))
              case BooleanType => v.BoolValue? || (v.StrValue? && IsBoolLiteral(v.s))
  {
  }

  /**
   * The branch of `_validate_type` for one known type: whether it accepts `value`. It agrees
   * with the value-by-value reading `AcceptingTypes`.
   */
  function Accepts(t: ColType, value: Value): (ok: bool)
    ensures ok <==> t in AcceptingTypes(value)
  {
    AcceptingTypesOf(t, value);
    match t
    case StringType => !value.NoneValue?
    case IntegerType =>
      if value.IntValue? || value.BoolValue? then true
      else if value.StrValue? then IsIntLiteral(value.s)
      else false
    case FloatType =>
      if value.IntValue? || value.FloatValue? || value.BoolValue? then true
      else if value.StrValue? then IsFloatLiteral(value.s)
      else false
    case BooleanType =>
      if value.BoolValue? then true
      else if value.StrValue? then IsBoolLiteral(value.s)
      else false
  }

  /**
   * `_validate_type(value, expected_type)`: the declared name is lower-cased, an unknown
   * name rejects everything, and a known one accepts exactly the values that fit it.
   */
  function ValidateType(value: Value, expectedType: string): (ok: bool)
    ensures ok <==> match ParseColType(Lower(expectedType))
                    case Some(t) => t in AcceptingTypes(value)
                    case None => false
  {
    // the chain `if expected_type == 'string' ... 'integer' ... 'float' ... 'boolean'`
    match ParseColType(Lower(expectedType))
    case Some(t) => Accepts(t, value)
    case None => false
  }

  /** Every string `int()` accepts, `float()` accepts too, so an `integer` literal always passes `float`. */
  lemma IntLiteralIsFloatLiteral(s: string)
    requires IsIntLiteral(s)
    ensures IsFloatLiteral(s)
  {
  }

  /** A plain (non-bool) integer is rejected by `boolean`, while `true`/`false` pass every type. */
  lemma BooleanRejectsPlainInt(i: int, b: bool)
    ensures !ValidateType(IntValue(i), "boolean")
    ensures ValidateType(BoolValue(b), "integer") && ValidateType(BoolValue(b), "float")
    ensures ValidateType(BoolValue(b), "boolean") && ValidateType(BoolValue(b), "string")
  {
    assert Lower("boolean") == "boolean";
    assert Lower("integer") == "integer";
    assert Lower("float") == "float";
    assert Lower("string") == "string";
  }

  /** The declared name is case-insensitive: `INTEGER` behaves as `integer`. */
  lemma DeclaredTypeIsCaseInsensitive(v: Value)
    ensures ValidateType(v, "INTEGER") == ValidateType(v, "integer")
  {
    assert Lower("INTEGER") == "integer";
    assert Lower("integer") == "integer";
  }

  /** `integer` accepts `"42"` and `"-3"` and rejects `"4.2"` and `"abc"`. */
  lemma IntegerExamples()
    ensures ValidateType(StrValue("42"), "integer")
    ensures ValidateType(StrValue("-3"), "integer")
    ensures !ValidateType(StrValue("4.2"), "integer")
    ensures !ValidateType(StrValue("abc"), "integer")
  {
    assert Lower("integer") == "integer";
    assert DropSign("-3") == "3";
    assert !IsDigit("4.2"[1]);
    assert !IsDigit("abc"[0]);
  }
}
