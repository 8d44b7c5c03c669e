/**
 * Parsed JSON request bodies, and the class-validator checks the two
 * telemetry DTOs are built from, over an optional property (`None` is a
 * missing property, which every check without `@IsOptional` rejects).
 */
module Json {
  import opened Results

  datatype Json =
    | JNull
    | JBool(b: bool)
    | JNumber(n: real)  // the exact value of the literal, before rounding to a double
    | JString(s: string)
    | JArray(items: seq<Json>)
    | JObject(fields: map<string, Json>)

  /** `object[name]`. */
  function Field(fields: map<string, Json>, name: string): Option<Json> {
    if name in fields then Some(fields[name]) else None
  }

  /** `@IsString()`. */
  predicate IsString(v: Option<Json>) {
    v.Some? && v.value.JString?
  }

  /** `@IsNotEmpty()`: anything but `''`, `null` and `undefined`. */
  predicate IsNotEmpty(v: Option<Json>) {
    v.Some? && v.value != JNull && v.value != JString("")
  }

  /**
   * 2^1024 - 2^970, halfway between the largest double and 2^1024: `JSON.parse`
   * rounds a number literal of at least this magnitude to an infinity.
   */
  const DOUBLE_OVERFLOW: real := 179769313486231580793728971405303415079934132710037826936173778980444968292764750946649017977587207096330286416692887910946555547851940402630657488671505820681908902000708383676273854845817711531764475730270069855571366959622842914819860834936475292719074168444365510704342711559699508093042880177904174497792.0

  /** The literal parses to a finite double. */
  predicate IsFinite(n: real) {
    -DOUBLE_OVERFLOW < n < DOUBLE_OVERFLOW
  }

  /**
   * `@IsNumber()` without `allowInfinity`: a number that parsed to a finite
   * double (JSON has no literal for NaN).
   */
  predicate IsNumber(v: Option<Json>) {
    v.Some? && v.value.JNumber? && IsFinite(v.value.n)
  }

  /** `@IsObject()`: a non-null object that is not an array. */
  predicate IsObject(v: Option<Json>) {
    v.Some? && v.value.JObject?
  }

  /** A string check such as `@IsISO8601()` or `@IsDateString()`: non-strings fail. */
  predicate StringSatisfies(v: Option<Json>, check: string -> bool) {
    IsString(v) && check(v.value.s)
  }

  /**
   * `whitelist: true, forbidNonWhitelisted: true`: a property the class
   * does not declare fails validation.
   */
  predicate OnlyDeclared(fields: map<string, Json>, declared: set<string>) {
    forall name :: name in fields ==> name in declared
  }

  /** The number of characters validator.js counts: code points, without the variation selectors U+FE0E and U+FE0F. */
  function ValidatorLength(s: string): (n: nat)
    ensures n <= |s|
  {
    if s == [] then 0
    else (if s[0] == '\U{FE0E}' || s[0] == '\U{FE0F}' then 0 else 1) + ValidatorLength(s[1..])
  }

  /** `@MaxLength(max)`. */
  predicate MaxLength(v: Option<Json>, max: nat) {
    IsString(v) && ValidatorLength(v.value.s) <= max
  }

  /** Without variation selectors every code point counts. */
  lemma {:induction false} PlainLength(s: string)
    requires forall i :: 0 <= i < |s| ==> s[i] != '\U{FE0E}' && s[i] != '\U{FE0F}'
    ensures ValidatorLength(s) == |s|
  {
    if s != [] {
      PlainLength(s[1..]);
    }
  }
}
