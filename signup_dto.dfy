/**
 * The sign-up body (signup.dto.ts) and the `Match` validator
 * (match.decorator.ts). `isEmail` stands for class-validator's `isEmail`
 * check, whose address syntax is not part of this model.
 */
module SignUpValidation {
  import opened Common
  import opened Validators

  /** `Match(property)` registers exactly one constraint: the name of the property to compare with. */
  function MatchConstraints(property: string): (constraints: seq<string>)
    ensures |constraints| == 1 && constraints[0] == property
  {
    [property]
  }

  /**
   * `validate(value, args)`: the value is strictly equal (`===`) to the
   * property of the same object named by the first constraint.
   */
  predicate MatchValidate(value: JsValue, obj: map<string, JsValue>, constraints: seq<string>)
    requires |constraints| >= 1
  {
    StrictEquals(value, Field(obj, constraints[0]))
  }

  /** `defaultMessage(args)`: "<property> must match <constraint>". */
  function MatchDefaultMessage(property: string, constraints: seq<string>): (msg: string)
    requires |constraints| >= 1
    ensures |msg| == |property| + 12 + |constraints[0]|
    ensures msg[..|property|] == property
    ensures msg[|property|..|property| + 12] == " must match "
    ensures msg[|property| + 12..] == constraints[0]
  {
    property + " must match " + constraints[0]
  }

  /**
   * A value passes `Match` exactly when it is the same primitive value as the
   * related property; an array or an object never passes, and values of
   * different JavaScript types never match.
   */
  lemma MatchIsStrictEquality(value: JsValue, obj: map<string, JsValue>, property: string)
    ensures MatchValidate(value, obj, MatchConstraints(property)) <==>
              value == Field(obj, property) && !value.Arr? && !value.Obj?
    ensures value.Str? && Field(obj, property).Num? ==> !MatchValidate(value, obj, MatchConstraints(property))
    ensures value.Num? && Field(obj, property).Str? ==> !MatchValidate(value, obj, MatchConstraints(property))
  {
  }

  /** Every per-field rule of `SignUpDto` except the comparison of the two passwords. */
  predicate SignUpFieldRules(body: map<string, JsValue>, isEmail: string -> bool) {
    && IsString(Field(body, "email")) && isEmail(Field(body, "email").s)
    && IsString(Field(body, "password")) && MinLength(Field(body, "password"), 8)
    && IsString(Field(body, "confirmPassword"))
    && IsString(Field(body, "name"))
    && OptionalNumber(Field(body, "age"))
    && IsString(Field(body, "sex"))
    && OptionalBoolean(Field(body, "pregnancy"))
    && OptionalNumber(Field(body, "height"))
    && OptionalNumber(Field(body, "weight"))
    && OptionalNumber(Field(body, "contact"))
    && OptionalString(Field(body, "blood"))
    && OptionalString(Field(body, "allergies"))
    && OptionalString(Field(body, "medCond"))
    && OptionalString(Field(body, "meds"))
  }

  /**
   * `SignUpDto` as its decorators are written. `@Validate(Match, ['password'])`
   * hands class-validator the decorator factory `Match` as if it were a
   * constraint class; no constraint is registered under it (only calling
   * `Match('password')` as a decorator would register one), so class-validator
   * runs nothing for it and `confirmPassword` is only checked to be a string.
   */
  predicate SignUpValidAsWritten(body: map<string, JsValue>, isEmail: string -> bool) {
    SignUpFieldRules(body, isEmail)
  }

  /** `SignUpDto` as intended: the field rules and `confirmPassword` matching `password`. */
  predicate SignUpValid(body: map<string, JsValue>, isEmail: string -> bool) {
    SignUpFieldRules(body, isEmail)
    && MatchValidate(Field(body, "confirmPassword"), body, MatchConstraints("password"))
  }

  /** A sign-up body whose two passwords differ. */
  function MismatchedBody(email: string): map<string, JsValue> {
    map["email" := Str(email), "password" := Str("correct-horse"),
        "confirmPassword" := Str("battery-staple"), "name" := Str("Ann"), "sex" := Str("F")]
  }

  /** As written, a body whose `confirmPassword` differs from `password` is accepted. */
  lemma AsWrittenAcceptsMismatchedPasswords(email: string, isEmail: string -> bool)
    requires isEmail(email)
    ensures SignUpValidAsWritten(MismatchedBody(email), isEmail)
    ensures Field(MismatchedBody(email), "confirmPassword") != Field(MismatchedBody(email), "password")
  {
    var body := MismatchedBody(email);
    assert body.Keys == {"email", "password", "confirmPassword", "name", "sex"};
    assert Field(body, "password") == Str("correct-horse");
    assert |"correct-horse"| == 13;
    assert "age" !in body && "pregnancy" !in body && "height" !in body && "weight" !in body;
    assert "contact" !in body && "blood" !in body && "allergies" !in body;
    assert "medCond" !in body && "meds" !in body;
  }

  /** As intended, an accepted body has a `confirmPassword` equal to its `password`. */
  lemma ValidSignUpPasswordsAgree(body: map<string, JsValue>, isEmail: string -> bool)
    requires SignUpValid(body, isEmail)
    ensures Field(body, "confirmPassword") == Field(body, "password")
    ensures Field(body, "password").Str? && |Field(body, "password").s| >= 8
    ensures !SignUpValid(MismatchedBody(Field(body, "email").s), isEmail)
  {
    var m := MismatchedBody(Field(body, "email").s);
    assert Field(m, "confirmPassword") == Str("battery-staple");
    assert Field(m, "password") == Str("correct-horse");
  }

  /** Only `email`, `password`, `confirmPassword`, `name` and `sex` are required; the rest may be absent. */
  lemma OptionalFieldsMayBeAbsent(body: map<string, JsValue>, isEmail: string -> bool)
    requires body.Keys == {"email", "password", "confirmPassword", "name", "sex"}
    requires IsString(Field(body, "email")) && isEmail(Field(body, "email").s)
    requires MinLength(Field(body, "password"), 8)
    requires Field(body, "confirmPassword") == Field(body, "password")
    requires IsString(Field(body, "name")) && IsString(Field(body, "sex"))
    ensures SignUpValid(body, isEmail)
  {
    assert "age" !in body && "pregnancy" !in body && "height" !in body && "weight" !in body;
    assert "contact" !in body && "blood" !in body && "allergies" !in body;
    assert "medCond" !in body && "meds" !in body;
  }
}
