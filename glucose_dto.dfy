/**
 * The bodies of the device-facing ingestion requests: `GlucoseReadingDto`
 * with `CreateBulkGlucoseDto` (create-bulk-glucose.dto.ts),
 * `CreateGlucoseApiKeyDto` (create-glucose-api-key.dto.ts) and
 * `BulkGlucoseApiKeyDto` (bulk-glucose-api-key.dto.ts).
 */
module GlucoseValidation {
  import opened Common
  import opened Validators

  /** `@IsNumber() @IsNotEmpty() @Min(0) @Max(1000) value`, bounds included. */
  predicate ValueRule(v: JsValue) {
    IsNumber(v) && IsNotEmpty(v) && Min(v, 0.0) && Max(v, 1000.0)
  }

  /**
   * One element of `readings` under `@ValidateNested()`. An object must pass
   * the rules of `GlucoseReadingDto` (`timestamp` is optional and numeric
   * when present); an element that is itself an array is stepped into, each
   * of its elements validated in the same way; any other value is refused.
   */
  predicate ValidReadingDto(v: JsValue)
    decreases v
  {
    match v
    case Obj(props) => ValueRule(Field(props, "value")) && OptionalNumber(Field(props, "timestamp"))
    case Arr(xs) => forall i :: 0 <= i < |xs| ==> ValidReadingDto(xs[i])
    case _ => false
  }

  /** `@IsArray() @ValidateNested({ each: true }) readings`; no size rule. */
  predicate ValidReadings(v: JsValue) {
    IsArray(v) && forall i :: 0 <= i < |v.elems| ==> ValidReadingDto(v.elems[i])
  }

  /** `CreateBulkGlucoseDto` */
  predicate ValidCreateBulkGlucoseDto(body: map<string, JsValue>) {
    NonEmptyString(Field(body, "userId")) && ValidReadings(Field(body, "readings"))
  }

  /** `CreateGlucoseApiKeyDto` */
  predicate ValidCreateGlucoseApiKeyDto(body: map<string, JsValue>) {
    NonEmptyString(Field(body, "apiKey"))
    && ValueRule(Field(body, "value"))
    && OptionalNumber(Field(body, "timestamp"))
  }

  /**
   * `BulkGlucoseApiKeyDto`. Its file names `GlucoseReadingDto` without
   * importing it; the element rule here is the one of
   * create-bulk-glucose.dto.ts.
   */
  predicate ValidBulkGlucoseApiKeyDto(body: map<string, JsValue>) {
    NonEmptyString(Field(body, "apiKey")) && ValidReadings(Field(body, "readings"))
  }

  /** The value rule is exactly "a number in [0, 1000]". */
  lemma ValueRuleIsClosedRange(v: JsValue)
    ensures ValueRule(v) <==> v.Num? && 0.0 <= v.n <= 1000.0
  {
  }

  /** Both bounds are inclusive, and the slightest step outside either is refused. */
  lemma ValueRuleBoundaries()
    ensures ValueRule(Num(0.0)) && ValueRule(Num(1000.0))
    ensures !ValueRule(Num(-0.001)) && !ValueRule(Num(1000.001))
    ensures !ValueRule(Str("120"))
  {
  }

  /** The single-reading body uses the same value rule as each bulk element. */
  lemma SingleAndBulkValueRuleAgree(body: map<string, JsValue>, element: map<string, JsValue>)
    requires Field(body, "value") == Field(element, "value")
    requires Field(body, "timestamp") == Field(element, "timestamp")
    ensures NonEmptyString(Field(body, "apiKey")) ==>
              (ValidCreateGlucoseApiKeyDto(body) <==> ValidReadingDto(Obj(element)))
  {
  }

  /** One invalid element rejects the whole bulk payload, on either bulk route. */
  lemma {:induction false} OneBadReadingRejectsAll(body: map<string, JsValue>, k: nat)
    requires Field(body, "readings").Arr? && k < |Field(body, "readings").elems|
    requires !ValidReadingDto(Field(body, "readings").elems[k])
    ensures !ValidCreateBulkGlucoseDto(body) && !ValidBulkGlucoseApiKeyDto(body)
  {
  }

  /**
   * A nested array is validated element by element: an empty one passes,
   * one holding a valid reading passes, and one holding a primitive fails.
   */
  lemma NestedArraysSteppedInto(reading: map<string, JsValue>, x: JsValue)
    requires ValidReadingDto(Obj(reading))
    requires !x.Obj? && !x.Arr?
    ensures ValidReadingDto(Arr([])) && ValidReadingDto(Arr([Obj(reading)]))
    ensures ValidReadingDto(Arr([Arr([Obj(reading)])]))
    ensures !ValidReadingDto(Arr([Obj(reading), x])) && !ValidReadingDto(x)
  {
    assert Arr([Obj(reading), x]).elems[1] == x;
  }

  /** An empty `readings` array is accepted: nothing asks for at least one reading. */
  lemma EmptyReadingsAccepted(body: map<string, JsValue>)
    requires Field(body, "readings") == Arr([])
    ensures ValidCreateBulkGlucoseDto(body) <==> NonEmptyString(Field(body, "userId"))
    ensures ValidBulkGlucoseApiKeyDto(body) <==> NonEmptyString(Field(body, "apiKey"))
  {
  }
}
