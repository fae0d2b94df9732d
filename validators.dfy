/**
 * The class-validator rules the request bodies use, each over the value of one
 * property of a parsed JSON body. Numbers are exact reals, never NaN or
 * infinite, so `@IsNumber()` amounts to "is a number" here.
 */
module Validators {
  import opened Common

  /** `@IsOptional()`: a null or undefined property skips every other rule on it. */
  predicate Missing(v: JsValue) {
    v == Undefined || v == Null
  }

  /** `@IsString()` */
  predicate IsString(v: JsValue) {
    v.Str?
  }

  /** `@IsNumber()` */
  predicate IsNumber(v: JsValue) {
    v.Num?
  }

  /** `@IsBoolean()` */
  predicate IsBoolean(v: JsValue) {
    v.Bool?
  }

  /** `@IsArray()` */
  predicate IsArray(v: JsValue) {
    v.Arr?
  }

  /** `@IsNotEmpty()`: anything but `''`, null and undefined. */
  predicate IsNotEmpty(v: JsValue) {
    v != Str("") && v != Null && v != Undefined
  }

  /** `@Min(m)`: a number no smaller than `m`. */
  predicate Min(v: JsValue, m: real) {
    v.Num? && v.n >= m
  }

  /** `@Max(m)`: a number no larger than `m`. */
  predicate Max(v: JsValue, m: real) {
    v.Num? && v.n <= m
  }

  /** `@MinLength(k)`: a string of at least `k` characters. */
  predicate MinLength(v: JsValue, k: nat) {
    v.Str? && |v.s| >= k
  }

  /** `@ArrayMinSize(k)` */
  predicate ArrayMinSize(v: JsValue, k: nat) {
    v.Arr? && |v.elems| >= k
  }

  /** `@ArrayMaxSize(k)` */
  predicate ArrayMaxSize(v: JsValue, k: nat) {
    v.Arr? && |v.elems| <= k
  }

  /** `@IsNumber({}, { each: true })` on an array: every element is a number. */
  predicate EachIsNumber(v: JsValue) {
    v.Arr? && forall i :: 0 <= i < |v.elems| ==> v.elems[i].Num?
  }

  /** `@IsString() @IsNotEmpty()` */
  predicate NonEmptyString(v: JsValue) {
    IsString(v) && IsNotEmpty(v)
  }

  /** `@IsNumber() @IsOptional()` */
  predicate OptionalNumber(v: JsValue) {
    Missing(v) || IsNumber(v)
  }

  /** `@IsString() @IsOptional()` */
  predicate OptionalString(v: JsValue) {
    Missing(v) || IsString(v)
  }

  /** `@IsBoolean() @IsOptional()` */
  predicate OptionalBoolean(v: JsValue) {
    Missing(v) || IsBoolean(v)
  }

  /** The rules check types strictly: no text is accepted where a number is required. */
  lemma NoCoercion(s: string)
    ensures !IsNumber(Str(s)) && !Min(Str(s), 0.0) && !Max(Str(s), 0.0)
    ensures !IsString(Num(0.0)) && !MinLength(Num(0.0), 0)
  {
  }
}
