/** The body of a prediction request, `PredictionRequestDto` (prediction.dto.ts). */
module PredictionValidation {
  import opened Common
  import opened Validators

  /** The number of time steps the forecasting model reads. */
  const SeqLength: nat := 36
  /** The number of static features the forecasting model reads. */
  const StaticLength: nat := 5

  /** `@IsArray() @ArrayMinSize(k) @ArrayMaxSize(k) @IsNumber({}, { each: true })` */
  predicate NumberArrayOfSize(v: JsValue, k: nat) {
    IsArray(v) && ArrayMinSize(v, k) && ArrayMaxSize(v, k) && EachIsNumber(v)
  }

  /** `PredictionRequestDto`. `userId` need only be a string: the empty string passes. */
  predicate ValidPredictionRequestDto(body: map<string, JsValue>) {
    IsString(Field(body, "userId"))
    && NumberArrayOfSize(Field(body, "xSeq"), SeqLength)
    && NumberArrayOfSize(Field(body, "xStatic"), StaticLength)
  }

  /** The request body once validated, as the predictions service receives it. */
  datatype PredictionRequest = PredictionRequest(userId: string, xSeq: seq<real>, xStatic: seq<real>)

  function Numbers(v: JsValue): (xs: seq<real>)
    requires EachIsNumber(v)
    ensures |xs| == |v.elems|
    ensures forall i :: 0 <= i < |xs| ==> v.elems[i] == Num(xs[i])
  {
    seq(|v.elems|, i requires 0 <= i < |v.elems| => v.elems[i].n)
  }

  /**
   * The typed request a valid body describes: 36 readings and 5 static
   * features, element for element the numbers of the body.
   */
  function ToRequest(body: map<string, JsValue>): (r: PredictionRequest)
    requires ValidPredictionRequestDto(body)
    ensures |r.xSeq| == SeqLength && |r.xStatic| == StaticLength
    ensures Field(body, "userId") == Str(r.userId)
    ensures Field(body, "xSeq") == Arr(seq(|r.xSeq|, i requires 0 <= i < |r.xSeq| => Num(r.xSeq[i])))
    ensures Field(body, "xStatic") == Arr(seq(|r.xStatic|, i requires 0 <= i < |r.xStatic| => Num(r.xStatic[i])))
  {
    PredictionRequest(Field(body, "userId").s, Numbers(Field(body, "xSeq")), Numbers(Field(body, "xStatic")))
  }

  /** An array of any other length than its 36 or 5, or with a non-number in it, is refused, as is a non-string `userId`. */
  lemma WrongShapesRejected(body: map<string, JsValue>)
    ensures Field(body, "xSeq").Arr? && |Field(body, "xSeq").elems| != SeqLength ==> !ValidPredictionRequestDto(body)
    ensures Field(body, "xStatic").Arr? && |Field(body, "xStatic").elems| != StaticLength ==> !ValidPredictionRequestDto(body)
    ensures (Field(body, "xSeq").Arr? &&
             exists i :: 0 <= i < |Field(body, "xSeq").elems| && !Field(body, "xSeq").elems[i].Num?)
            ==> !ValidPredictionRequestDto(body)
    ensures (Field(body, "xStatic").Arr? &&
             exists i :: 0 <= i < |Field(body, "xStatic").elems| && !Field(body, "xStatic").elems[i].Num?)
            ==> !ValidPredictionRequestDto(body)
    ensures !Field(body, "userId").Str? ==> !ValidPredictionRequestDto(body)
  {
  }
}
