/**
 * The decision logic of the `/chat` and `/predict` handlers, with the network
 * abstracted: each outbound call's reply is a parameter (None when the call
 * fails, returns a non-2xx status or a body that is not JSON), and the
 * response records which outbound calls were made, in order.
 */
module Handlers {
  import opened Wrappers
  import opened Json
  import opened Features

  /** An outbound request made while serving one inbound request. */
  datatype Call =
    | TokenRequest
    | ChatRequest(bearer: Json, message: Json)
    | PredictionRequest(bearer: Json, payload: Json)

  /** HTTP 400 with `{"error": error}`, HTTP 500, or HTTP 200 with `body`. */
  datatype Status = BadRequest(error: string) | ServerError | Ok(body: Json)

  datatype Response = Response(status: Status, calls: seq<Call>)

  /** The calls are the token request followed by at most the one relay request. */
  predicate TokenFirst(calls: seq<Call>) {
    |calls| <= 2 && (|calls| > 0 ==> calls[0] == TokenRequest)
  }

  // ---------------------------------------------------------------------------
  // get_watson_token

  /**
   * The token `get_watson_token` returns given the identity endpoint's reply:
   * the `access_token` member of the JSON object, and a failure otherwise.
   */
  function Token(identityReply: Option<Json>): (token: Option<Json>)
    ensures token.Some? <==> identityReply.Some? && identityReply.value.JObj? && "access_token" in identityReply.value.fields
    ensures token.Some? ==> token.value == identityReply.value.fields["access_token"]
  {
    match identityReply
    case None => None
    case Some(reply) => Field(reply, "access_token")
  }

  // ---------------------------------------------------------------------------
  // /chat

  /** The `message` member, `""` when absent. */
  function Message(fields: map<string, Json>): (message: Json)
    ensures "message" in fields ==> message == fields["message"]
    ensures "message" !in fields ==> message == JStr("") && !Truthy(message)
  {
    Get(fields, "message", JStr(""))
  }

  /**
   * `/chat`: a body that is not an object fails; a falsy `message` is a 400
   * before any outbound call; otherwise one token request, then one chat
   * request, whose reply is returned unchanged.
   */
  function Chat(body: Json, identityReply: Option<Json>, chatReply: Option<Json>): (resp: Response)
    ensures TokenFirst(resp.calls)
    ensures resp.status.BadRequest? <==> body.JObj? && !Truthy(Message(body.fields))
    ensures resp.status.BadRequest? ==> resp.status.error == "No message provided" && resp.calls == []
    ensures |resp.calls| >= 1 <==> body.JObj? && Truthy(Message(body.fields))
    ensures |resp.calls| == 2 <==> body.JObj? && Truthy(Message(body.fields)) && Token(identityReply).Some?
    ensures |resp.calls| == 2 ==> resp.calls[1] == ChatRequest(Token(identityReply).value, body.fields["message"])
    ensures resp.status.Ok? <==> |resp.calls| == 2 && chatReply.Some?
    ensures resp.status.Ok? ==> resp.status.body == chatReply.value
  {
    if !body.JObj? then Response(ServerError, [])
    else
      var message := Message(body.fields);
      if !Truthy(message) then Response(BadRequest("No message provided"), [])
      else
        var token := Token(identityReply);
        if token.None? then Response(ServerError, [TokenRequest])
        else
          var calls := [TokenRequest, ChatRequest(token.value, message)];
          if chatReply.None? then Response(ServerError, calls)
          else Response(Ok(chatReply.value), calls)
  }

  // ---------------------------------------------------------------------------
  // /predict

  /** The `symptoms` member, `""` when absent. */
  function Symptoms(fields: map<string, Json>): (symptoms: Json)
    ensures "symptoms" in fields ==> symptoms == fields["symptoms"]
    ensures "symptoms" !in fields ==> symptoms == JStr("") && !Truthy(symptoms)
  {
    Get(fields, "symptoms", JStr(""))
  }

  /** The `patientData` member, `{}` when absent. */
  function PatientData(fields: map<string, Json>): (patientData: Json)
    ensures "patientData" in fields ==> patientData == fields["patientData"]
    ensures "patientData" !in fields ==> patientData == JObj(map[])
  {
    Get(fields, "patientData", JObj(map[]))
  }

  /** The feature vector as a JSON list of numbers. */
  function NumList(xs: seq<int>): (j: Json)
    ensures j.JArr? && |j.items| == |xs|
    ensures forall i :: 0 <= i < |xs| ==> j.items[i] == JNum(xs[i])
  {
    JArr(seq(|xs|, i requires 0 <= i < |xs| => JNum(xs[i])))
  }

  /**
   * The scoring payload: one input whose `fields` name two features and whose
   * single row of `values` is the whole feature vector.
   */
  function Payload(features: seq<int>): (payload: Json)
    ensures payload.JObj? && payload.fields.Keys == {"input_data"}
    ensures var inputs := payload.fields["input_data"];
      inputs.JArr? && |inputs.items| == 1 && inputs.items[0].JObj?
    ensures var input := payload.fields["input_data"].items[0].fields;
      && input.Keys == {"fields", "values"}
      && input["fields"] == JArr([JStr("feature1"), JStr("feature2")])
      && input["values"].JArr? && |input["values"].items| == 1
    ensures var row := payload.fields["input_data"].items[0].fields["values"].items[0];
      row.JArr? && |row.items| == |features|
      && forall i :: 0 <= i < |features| ==> row.items[i] == JNum(features[i])
  {
    JObj(map["input_data" := JArr([JObj(map[
      "fields" := JArr([JStr("feature1"), JStr("feature2")]),
      "values" := JArr([NumList(features)])])])])
  }

  /**
   * `watson_response["predictions"][0]["values"][0][0]`, or None where the
   * subscripting raises.
   */
  function ExtractPrediction(reply: Json): (r: Option<Json>)
    ensures r.Some? ==> reply.JObj? && "predictions" in reply.fields
    ensures r.Some? ==> reply.fields["predictions"].JArr? && |reply.fields["predictions"].items| > 0
    ensures r.Some? ==> var first := reply.fields["predictions"].items[0];
      first.JObj? && "values" in first.fields
    ensures r.Some? ==> var values := reply.fields["predictions"].items[0].fields["values"];
      First(values).Some? && First(First(values).value).Some? && r == First(First(values).value)
  {
    match Field(reply, "predictions")
    case None => None
    case Some(predictions) =>
      match First(predictions)
      case None => None
      case Some(first) =>
        match Field(first, "values")
        case None => None
        case Some(values) =>
          match First(values)
          case None => None
          case Some(row) => First(row)
  }

  /** The upstream reply that carries `v` at the prediction path. */
  function PredictionReply(v: Json): Json {
    JObj(map["predictions" := JArr([JObj(map["values" := JArr([JArr([v])])])])])
  }

  /** Whatever surrounds it, the value at `predictions[0].values[0][0]` is the one extracted. */
  lemma ExtractAtPath(reply: Json)
    requires reply.JObj? && "predictions" in reply.fields
    requires reply.fields["predictions"].JArr? && |reply.fields["predictions"].items| > 0
    requires reply.fields["predictions"].items[0].JObj? && "values" in reply.fields["predictions"].items[0].fields
    requires reply.fields["predictions"].items[0].fields["values"].JArr?
    requires |reply.fields["predictions"].items[0].fields["values"].items| > 0
    requires reply.fields["predictions"].items[0].fields["values"].items[0].JArr?
    requires |reply.fields["predictions"].items[0].fields["values"].items[0].items| > 0
    ensures ExtractPrediction(reply) == Some(reply.fields["predictions"].items[0].fields["values"].items[0].items[0])
  {
  }

  /** A value placed at the prediction path is extracted unchanged. */
  lemma ExtractRoundTrip(v: Json)
    ensures ExtractPrediction(PredictionReply(v)) == Some(v)
  {
  }

  /**
   * `/predict`: a body that is not an object fails; a falsy `symptoms` is a 400
   * before anything else; then the features are computed (a non-string
   * `symptoms` or an unreadable `patientData` fails here, before any call);
   * then one token request and one scoring request, and the scalar at the
   * prediction path is returned as `{"prediction": value}`.
   */
  function Predict(body: Json, identityReply: Option<Json>, scoringReply: Option<Json>): (resp: Response)
    ensures TokenFirst(resp.calls)
    ensures resp.status.BadRequest? <==> body.JObj? && !Truthy(Symptoms(body.fields))
    ensures resp.status.BadRequest? ==> resp.status.error == "No symptoms provided" && resp.calls == []
    ensures |resp.calls| >= 1 <==>
      && body.JObj? && Symptoms(body.fields).JStr? && |Symptoms(body.fields).s| > 0
      && PatientOf(PatientData(body.fields)).Some?
    ensures |resp.calls| == 2 <==> |resp.calls| >= 1 && Token(identityReply).Some?
    ensures |resp.calls| == 2 ==> Token(identityReply).Some? && resp.calls[1] == PredictionRequest(Token(identityReply).value,
      Payload(Preprocess(Symptoms(body.fields).s, PatientOf(PatientData(body.fields)).value)))
    ensures resp.status.Ok? <==> |resp.calls| == 2 && scoringReply.Some? && ExtractPrediction(scoringReply.value).Some?
    ensures resp.status.Ok? ==> resp.status.body == JObj(map["prediction" := ExtractPrediction(scoringReply.value).value])
  {
    if !body.JObj? then Response(ServerError, [])
    else
      var symptoms := Symptoms(body.fields);
      if !Truthy(symptoms) then Response(BadRequest("No symptoms provided"), [])
      else if !symptoms.JStr? then Response(ServerError, [])
      else
        var patient := PatientOf(PatientData(body.fields));
        if patient.None? then Response(ServerError, [])
        else
          var features := Preprocess(symptoms.s, patient.value);
          var token := Token(identityReply);
          if token.None? then Response(ServerError, [TokenRequest])
          else
            var calls := [TokenRequest, PredictionRequest(token.value, Payload(features))];
            if scoringReply.None? then Response(ServerError, calls)
            else
              var prediction := ExtractPrediction(scoringReply.value);
              if prediction.None? then Response(ServerError, calls)
              else Response(Ok(JObj(map["prediction" := prediction.value])), calls)
  }

  // ---------------------------------------------------------------------------
  // Properties of the two handlers

  /** A missing or empty `message` is a 400 with no outbound call, whatever the upstream would say. */
  lemma ChatRejectsMissingMessage(fields: map<string, Json>, identityReply: Option<Json>, chatReply: Option<Json>)
    requires "message" !in fields || fields["message"] == JStr("")
    ensures Chat(JObj(fields), identityReply, chatReply) == Response(BadRequest("No message provided"), [])
  {
  }

  /** Missing or empty `symptoms` is a 400 with no outbound call, whatever `patientData` holds. */
  lemma PredictRejectsMissingSymptoms(fields: map<string, Json>, identityReply: Option<Json>, scoringReply: Option<Json>)
    requires "symptoms" !in fields || fields["symptoms"] == JStr("")
    ensures Predict(JObj(fields), identityReply, scoringReply) == Response(BadRequest("No symptoms provided"), [])
  {
  }

  /** When the token cannot be obtained, both handlers fail with no call after the token request. */
  lemma TokenFailureStopsBoth(body: Json, identityReply: Option<Json>, reply: Option<Json>)
    requires Token(identityReply).None?
    ensures Chat(body, identityReply, reply).calls in {[], [TokenRequest]}
    ensures Predict(body, identityReply, reply).calls in {[], [TokenRequest]}
    ensures !Chat(body, identityReply, reply).status.Ok?
    ensures !Predict(body, identityReply, reply).status.Ok?
    ensures body.JObj? && Truthy(Message(body.fields)) ==>
      Chat(body, identityReply, reply) == Response(ServerError, [TokenRequest])
    ensures (body.JObj? && Symptoms(body.fields).JStr? && |Symptoms(body.fields).s| > 0
             && PatientOf(PatientData(body.fields)).Some?) ==>
      Predict(body, identityReply, reply) == Response(ServerError, [TokenRequest])
  {
  }

  /** A scoring reply without `predictions` is a 500 after both calls were made. */
  lemma MissingPredictionsFails(s: string, p: Patient, token: Json, reply: map<string, Json>)
    requires |s| > 0
    requires "predictions" !in reply
    ensures var body := JObj(map["symptoms" := JStr(s), "patientData" := PatientJson(p)]);
      Predict(body, Some(JObj(map["access_token" := token])), Some(JObj(reply))).status == ServerError
  {
    PatientRoundTrip(p);
  }

  /**
   * The whole successful `/predict` exchange: the token, then the scoring
   * request carrying the six features of the symptoms and the record, and the
   * prediction that came back.
   */
  lemma PredictSucceeds(s: string, p: Patient, token: Json, v: Json)
    requires |s| > 0
    ensures var body := JObj(map["symptoms" := JStr(s), "patientData" := PatientJson(p)]);
      Predict(body, Some(JObj(map["access_token" := token])), Some(PredictionReply(v)))
      == Response(Ok(JObj(map["prediction" := v])),
                  [TokenRequest, PredictionRequest(token, Payload(Preprocess(s, p)))])
  {
    var body := JObj(map["symptoms" := JStr(s), "patientData" := PatientJson(p)]);
    assert Symptoms(body.fields) == JStr(s);
    assert PatientData(body.fields) == PatientJson(p);
    PatientRoundTrip(p);
    assert Token(Some(JObj(map["access_token" := token]))) == Some(token);
    ExtractRoundTrip(v);
  }

  /** The scoring payload names two fields but its row carries all six features. */
  lemma PayloadCarriesAllSix(s: string, p: Patient)
    ensures var input := Payload(Preprocess(s, p)).fields["input_data"].items[0].fields;
      |input["fields"].items| == 2 && |input["values"].items[0].items| == 6
  {
  }
}
