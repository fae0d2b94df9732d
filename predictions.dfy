/**
 * The predictions service: it forwards a validated request to the forecasting
 * model's HTTP endpoint, checks the answer, saves one prediction record and
 * classifies failures; and it lists a user's saved predictions. The HTTP call
 * is a function from the outbound request to its outcome, and the record
 * collection is a sequence in insertion order.
 */
module Predictions {
  import opened Common
  import opened PredictionValidation

  /** The JSON body posted to the model: `{ x_seq, x_static, user_id }`. */
  datatype PredictPayload = PredictPayload(x_seq: seq<real>, x_static: seq<real>, user_id: string)

  datatype ModelRequest = ModelRequest(url: string, body: PredictPayload)

  /**
   * What the POST comes back with: a response body, an HTTP error that
   * carries the error response's `data`, or any other failure (a timeout, a
   * refused connection).
   */
  datatype HttpOutcome = Responded(body: JsValue) | HttpError(data: JsValue) | OtherError

  /** What the `catch` block receives: an error raised inside the `try`, or the HTTP client's error. */
  datatype Caught = Raised(error: Error) | ClientError(response: Option<JsValue>)

  /** A saved document: the schema's fields plus the two timestamps the store fills. */
  datatype PredictionRecord = PredictionRecord(userId: string, values: seq<JsValue>, createdAt: int, updatedAt: int)

  /** `PredictionResponseDto` */
  datatype PredictionResponse = PredictionResponse(userId: string, values: seq<JsValue>, createdAt: int)

  /** The default of `MODEL_API_URL` as written at predictions.service.ts:26. */
  const DefaultModelApiUrlAsWritten := "http://localhost:5000/predict"

  /** The default base address of the model server, which serves `POST /predict`. */
  const DefaultModelApiUrl := "http://localhost:5000"

  /** The model address the constructor reads: the configured one, else the default as written. */
  function ModelApiUrl(configured: Option<string>): (url: string)
    ensures configured.Some? ==> url == configured.value
    ensures configured.None? ==> url == DefaultModelApiUrlAsWritten
  {
    configured.GetOr(DefaultModelApiUrlAsWritten)
  }

  /** The model address with the default corrected to the server's base address. */
  function CorrectedModelApiUrl(configured: Option<string>): (url: string)
    ensures configured.Some? ==> url == configured.value
    ensures configured.None? ==> url == DefaultModelApiUrl
  {
    configured.GetOr(DefaultModelApiUrl)
  }

  /** The request `predictAndSave` sends: to `<modelApiUrl>/predict`, with the three inputs unchanged. */
  function OutboundRequest(modelApiUrl: string, data: PredictionRequest): (req: ModelRequest)
    ensures req.url == modelApiUrl + "/predict"
    ensures req.body.x_seq == data.xSeq && req.body.x_static == data.xStatic && req.body.user_id == data.userId
  {
    ModelRequest(modelApiUrl + "/predict", PredictPayload(data.xSeq, data.xStatic, data.userId))
  }

  /**
   * Without a configured address, a store built as written posts to
   * `/predict/predict`, a path the model server does not serve.
   */
  lemma AsWrittenDefaultDoublesPath(data: PredictionRequest)
    ensures OutboundRequest(ModelApiUrl(None), data).url == "http://localhost:5000/predict" + "/predict"
  {
  }

  /** With the corrected default, the request goes to the model server's `/predict` route. */
  lemma DefaultReachesPredictRoute(data: PredictionRequest)
    ensures OutboundRequest(CorrectedModelApiUrl(None), data).url == "http://localhost:5000" + "/predict"
    ensures forall url :: CorrectedModelApiUrl(Some(url)) == ModelApiUrl(Some(url))
  {
  }

  const InvalidResponse := BadRequest("Invalid prediction response from model API")

  /**
   * The check on the model's answer: `prediction` must be present and an
   * array. Reading `prediction` of a null or absent body raises a TypeError.
   */
  function CheckResponse(body: JsValue): (r: Result<seq<JsValue>>)
    ensures r.Ok? <==> body.Obj? && "prediction" in body.props && body.props["prediction"].Arr?
    ensures r.Ok? ==> r.value == body.props["prediction"].elems
    ensures r.Err? && (body == Undefined || body == Null) ==> r.error.TypeError?
    ensures r.Err? && body != Undefined && body != Null ==> r.error == InvalidResponse
  {
    match Prop(body, "prediction")
    case Err(e) => Err(e)
    case Ok(p) =>
      if !Truthy(p) || !p.Arr? then Err(InvalidResponse) else Ok(p.elems)
  }

  /** `${error.response.data?.error || 'Unknown error'}` */
  function ModelErrorDetail(data: JsValue): (text: string)
    ensures !Truthy(OptionalProp(data, "error")) ==> text == "Unknown error"
    ensures OptionalProp(data, "error").Str? && OptionalProp(data, "error").s != "" ==>
              text == OptionalProp(data, "error").s
  {
    ToJsString(Or(OptionalProp(data, "error"), Str("Unknown error")))
  }

  /**
   * The `catch` block: a BadRequest passes through unchanged, an error with
   * a response becomes a BadRequest naming the model's error, and anything
   * else becomes an InternalServerError.
   */
  function Classify(c: Caught): (e: Error)
    ensures c.Raised? && c.error.BadRequest? ==> e == c.error
    ensures c.ClientError? && c.response.Some? ==>
              e == BadRequest("Model API error: " + ModelErrorDetail(c.response.value))
    ensures (c.Raised? && !c.error.BadRequest?) || c == ClientError(None) ==>
              e == InternalServerError("Failed to process glucose prediction")
    ensures e.BadRequest? || e.InternalServerError?
  {
    match c
    case Raised(BadRequest(_)) => c.error
    case ClientError(Some(data)) => BadRequest("Model API error: " + ModelErrorDetail(data))
    case _ => InternalServerError("Failed to process glucose prediction")
  }

  /** What `predictAndSave` ends in for one HTTP outcome: the record it saves, or the error it throws. */
  function PredictOutcome(data: PredictionRequest, outcome: HttpOutcome, now: int): (r: Result<PredictionRecord>)
  {
    match outcome
    case Responded(body) =>
      (match CheckResponse(body)
       case Ok(values) => Ok(PredictionRecord(data.userId, values, now, now))
       case Err(e) => Err(Classify(Raised(e))))
    case HttpError(d) => Err(Classify(ClientError(Some(d))))
    case OtherError => Err(Classify(ClientError(None)))
  }

  /** A well-formed answer saves a record of this user whose values are the answer's array. */
  lemma ValidAnswerSaved(data: PredictionRequest, xs: seq<JsValue>, rest: map<string, JsValue>, now: int)
    ensures PredictOutcome(data, Responded(Obj(rest["prediction" := Arr(xs)])), now)
              == Ok(PredictionRecord(data.userId, xs, now, now))
  {
  }

  /** A response without an array `prediction` is a BadRequest with the fixed message. */
  lemma MalformedAnswerRejected(data: PredictionRequest, body: JsValue, now: int)
    requires body != Undefined && body != Null
    requires !(body.Obj? && "prediction" in body.props && body.props["prediction"].Arr?)
    ensures PredictOutcome(data, Responded(body), now) == Err(InvalidResponse)
  {
  }

  /** Every failure is a BadRequest or an InternalServerError, and each kind of outcome has its one error. */
  lemma FailuresClassified(data: PredictionRequest, outcome: HttpOutcome, now: int)
    ensures PredictOutcome(data, outcome, now).Err? ==>
              PredictOutcome(data, outcome, now).error.BadRequest? ||
              PredictOutcome(data, outcome, now).error.InternalServerError?
    ensures outcome.HttpError? ==>
              PredictOutcome(data, outcome, now) == Err(BadRequest("Model API error: " + ModelErrorDetail(outcome.data)))
    ensures outcome.OtherError? || outcome == Responded(Null) || outcome == Responded(Undefined) ==>
              PredictOutcome(data, outcome, now) == Err(InternalServerError("Failed to process glucose prediction"))
  {
  }

  /**
   * The model server reports its own failures as `{ "detail": ... }`
   * (main.py:122), which has no `error` field, so the message never carries
   * the server's explanation.
   */
  lemma ServerDetailIsDropped(data: PredictionRequest, detail: string, now: int)
    ensures PredictOutcome(data, HttpError(Obj(map["detail" := Str(detail)])), now)
              == Err(BadRequest("Model API error: " + "Unknown error"))
  {
    assert OptionalProp(Obj(map["detail" := Str(detail)]), "error") == Undefined;
  }

  /** `{ userId, values, createdAt }` of a saved record. */
  function ToResponse(rec: PredictionRecord): (r: PredictionResponse)
    ensures r.userId == rec.userId && r.values == rec.values && r.createdAt == rec.createdAt
  {
    PredictionResponse(rec.userId, rec.values, rec.createdAt)
  }

  /** The records of one user, in insertion order. */
  function RecordsOf(records: seq<PredictionRecord>, userId: string): (r: seq<PredictionRecord>)
    ensures |r| <= |records|
    ensures forall x :: x in r <==> x in records && x.userId == userId
  {
    if records == [] then []
    else if records[0].userId == userId then [records[0]] + RecordsOf(records[1..], userId)
    else RecordsOf(records[1..], userId)
  }

  /** Another user's record does not change what a user's records are; a new record of the user comes last. */
  lemma {:induction false} RecordsOfAppend(records: seq<PredictionRecord>, x: PredictionRecord, userId: string)
    ensures RecordsOf(records + [x], userId) == RecordsOf(records, userId) + (if x.userId == userId then [x] else [])
  {
    if records == [] {
      assert records + [x] == [x];
      assert [x][1..] == [];
    } else {
      assert (records + [x])[1..] == records[1..] + [x];
      RecordsOfAppend(records[1..], x, userId);
    }
  }

  class PredictionStore {
    /** The model server's address, read from the configuration when the service is built. */
    const modelApiUrl: string
    var records: seq<PredictionRecord>

    constructor (configured: Option<string>)
      ensures configured.Some? ==> modelApiUrl == configured.value
      ensures configured.None? ==> modelApiUrl == DefaultModelApiUrlAsWritten
      ensures records == []
    {
      modelApiUrl := ModelApiUrl(configured);
      records := [];
    }

    /**
     * `predictAndSave(data)`: posts the request, checks the answer and saves
     * one record; on any failure it saves nothing and throws the classified
     * error. `transport` answers the POST, `now` is the store's clock.
     */
    method PredictAndSave(data: PredictionRequest, transport: ModelRequest -> HttpOutcome, now: int)
      returns (r: Result<PredictionResponse>)
      modifies this
      ensures var outcome := PredictOutcome(data, transport(OutboundRequest(modelApiUrl, data)), now);
        && (outcome.Ok? ==> records == old(records) + [outcome.value] && r == Ok(ToResponse(outcome.value)))
        && (outcome.Err? ==> records == old(records) && r == Err(outcome.error))
    {
      var request := OutboundRequest(modelApiUrl, data);
      var caught: Caught;
      match transport(request) {
        case Responded(body) =>
          var checked := CheckResponse(body);
          if checked.Ok? {
            var prediction := PredictionRecord(data.userId, checked.value, now, now);
            records := records + [prediction];
            return Ok(ToResponse(prediction));
          }
          caught := Raised(checked.error);
        case HttpError(d) =>
          caught := ClientError(Some(d));
        case OtherError =>
          caught := ClientError(None);
      }
      r := Err(Classify(caught));
    }

    /**
     * `getUserPredictions(userId, limit = 10)`: that user's records, newest
     * first, as responses. A limit of 0 is no limit, as for the store's
     * `limit(0)`.
     */
    function GetUserPredictions(userId: string, limit: Option<nat>): (r: seq<PredictionResponse>)
      reads this
      ensures var mine := RecordsOf(records, userId); var n := limit.GetOr(10);
        |r| == (if n == 0 || |mine| < n then |mine| else n)
      ensures var mine := RecordsOf(records, userId);
        forall i :: 0 <= i < |r| ==> r[i] == ToResponse(mine[|mine| - 1 - i])
    {
      var n := limit.GetOr(10);
      var mine := RecordsOf(records, userId);
      var kept := NewestFirst(mine, if n == 0 then |mine| else n);
      seq(|kept|, i requires 0 <= i < |kept| => ToResponse(kept[i]))
    }
  }

  /**
   * A positive limit bounds the answer, and every answer is the response of a
   * stored record of that user.
   */
  lemma PredictionsAreTheUsers(store: PredictionStore, userId: string, limit: Option<nat>)
    ensures var r := store.GetUserPredictions(userId, limit);
      && (limit.GetOr(10) > 0 ==> |r| <= limit.GetOr(10))
      && forall i :: 0 <= i < |r| ==> r[i].userId == userId && exists rec :: rec in store.records && r[i] == ToResponse(rec)
  {
    var r := store.GetUserPredictions(userId, limit);
    var mine := RecordsOf(store.records, userId);
    forall i | 0 <= i < |r| ensures r[i].userId == userId && exists rec :: rec in store.records && r[i] == ToResponse(rec) {
      var rec := mine[|mine| - 1 - i];
      assert rec in mine;
      assert rec in store.records && r[i] == ToResponse(rec);
    }
  }
}
