/**
 * The request path of the agent's Lambda handler (`lambda_handler`): pick
 * the request body, read and trim the message, take the classifier's top
 * prediction with its defaults, run the verdict engine on the trimmed
 * message and assemble the audit record returned with status 200. Every
 * exception becomes a 500 response.
 *
 * The JSON decoder and the classifier endpoint are parameters: `parse`
 * answers `None` when the text is not JSON or does not hold an object, and
 * `classify` answers `None` when the endpoint call or the decoding of its
 * answer fails. The record's id and timestamp are inputs.
 */
module Relay {
  import opened Wrappers
  import opened Text
  import opened VerdictEngine

  /** A JSON value as far as the handler looks at it: a string, or anything else. */
  datatype Value = Str(s: string) | NonString

  /** A JSON object: the Lambda event, or the decoded request body. */
  type Object = map<string, Value>

  /** Why the handler answered 500. */
  datatype Fault =
    | MalformedBody     // the string body is not JSON, or not an object (`.get` is missing)
    | NonStringMessage  // "message" holds a value that has no `.strip()`
    | EmptyMessage      // the ValueError for a missing or blank message
    | ClassifierFailed  // the endpoint call, or the decoding of its answer, failed
    | NoPrediction      // the endpoint answered an empty list, so `result[0]` fails

  /** One entry of the classifier's answer; either key may be absent. */
  datatype Prediction = Prediction(classLabel: Option<string>, confidence: Option<real>)

  /** The item written to the log table and returned as the response body. */
  datatype AuditRecord = AuditRecord(
    id: string,
    message: string,
    analysis: string,
    severity: string,
    source: string,
    recommendation: string,
    agentDecision: string,
    timestamp: string)

  datatype Response = Ok(record: AuditRecord) | ServerError(fault: Fault) {
    /** The HTTP status code of the response. */
    function StatusCode(): (code: int)
      ensures code == 200 <==> Ok?
      ensures code == 500 <==> ServerError?
    {
      if Ok? then 200 else 500
    }
  }

  /** Label assumed when the top prediction has none. */
  const BenignLabel: string := "LABEL_0"

  /** Score assumed when the top prediction has none. */
  const DefaultScore: real := 0.0

  // ---------------------------------------------------------------------
  // Request body
  // ---------------------------------------------------------------------

  /** The event carries its request as a JSON string under "body" (the API Gateway shape). */
  predicate HasEncodedBody(event: Object) {
    "body" in event && event["body"].Str?
  }

  /**
   * The request body: the decoded "body" string when there is one, and the
   * event itself otherwise (a direct invocation, or a "body" that is not a
   * string). Only a string body that does not decode to an object fails.
   */
  function SelectBody(event: Object, parse: string -> Option<Object>): (r: Result<Object, Fault>)
    ensures !HasEncodedBody(event) ==> r == Success(event)
    ensures HasEncodedBody(event) ==> (r.Success? <==> parse(event["body"].s).Some?)
    ensures HasEncodedBody(event) && r.Success? ==> r.value == parse(event["body"].s).value
    ensures r.Failure? ==> r.error == MalformedBody
  {
    if HasEncodedBody(event) then
      match parse(event["body"].s)
      case Some(body) => Success(body)
      case None => Failure(MalformedBody)
    else Success(event)
  }

  // ---------------------------------------------------------------------
  // Message
  // ---------------------------------------------------------------------

  /**
   * `body.get("message", "").strip()`, rejected when empty. A missing
   * message counts as the empty string. On success the message is the
   * stripped text: a non-empty slice of it, without surrounding whitespace.
   */
  function UserInput(body: Object): (r: Result<string, Fault>)
    ensures r.Success? <==> "message" in body && body["message"].Str? && !AllSpace(body["message"].s)
    ensures r.Success? ==>
      && r.value != []
      && Trim(r.value) == r.value
      && !IsSpace(r.value[0]) && !IsSpace(r.value[|r.value| - 1])
      && Contains(body["message"].s, r.value)
    ensures r.Success? ==> r.value == Trim(body["message"].s)
    ensures r.Failure? ==> (r.error == NonStringMessage <==> "message" in body && body["message"].NonString?)
    ensures r.Failure? ==> r.error == NonStringMessage || r.error == EmptyMessage
  {
    var raw := if "message" in body then body["message"] else Str("");
    match raw
    case NonString => Failure(NonStringMessage)
    case Str(s) =>
      var input := Trim(s);
      if input == [] then Failure(EmptyMessage)
      else
        TrimIdempotent(s);
        TrimIsSlice(s);
        Success(input)
  }

  // ---------------------------------------------------------------------
  // Classifier answer
  // ---------------------------------------------------------------------

  /**
   * Label and score of the first prediction, "LABEL_0" and 0.0 standing in
   * for a missing label or score. The rest of the answer is ignored; an
   * empty answer fails.
   */
  function TopPrediction(preds: seq<Prediction>): (r: Result<(string, real), Fault>)
    ensures r.Failure? <==> preds == []
    ensures r.Failure? ==> r.error == NoPrediction
    ensures r.Success? && preds[0].classLabel.Some? ==> r.value.0 == preds[0].classLabel.value
    ensures r.Success? && preds[0].classLabel.None? ==> r.value.0 == BenignLabel
    ensures r.Success? && preds[0].confidence.Some? ==> r.value.1 == preds[0].confidence.value
    ensures r.Success? && preds[0].confidence.None? ==> r.value.1 == DefaultScore
  {
    if preds == [] then Failure(NoPrediction)
    else Success((preds[0].classLabel.GetOr(BenignLabel), preds[0].confidence.GetOr(DefaultScore)))
  }

  /** Only the first prediction of the answer matters. */
  lemma TopPredictionIgnoresRest(p: Prediction, rest1: seq<Prediction>, rest2: seq<Prediction>)
    ensures TopPrediction([p] + rest1) == TopPrediction([p] + rest2)
  {
  }

  /** The label and score sent to the verdict engine for a classifier answer. */
  function Classification(answer: Option<seq<Prediction>>): (r: Result<(string, real), Fault>)
    ensures r.Success? <==> answer.Some? && answer.value != []
    ensures r.Failure? ==> (r.error == ClassifierFailed <==> answer.None?)
    ensures r.Failure? ==> (r.error == NoPrediction <==> answer.Some?)
    ensures r.Success? ==> r == TopPrediction(answer.value)
  {
    match answer
    case None => Failure(ClassifierFailed)
    case Some(preds) => TopPrediction(preds)
  }

  // ---------------------------------------------------------------------
  // Audit record and handler
  // ---------------------------------------------------------------------

  /** The log item built from the trimmed message and the verdict engine's output. */
  function BuildRecord(id: string, input: string, m: Metadata, timestamp: string): (r: AuditRecord)
    ensures r.id == id && r.message == input && r.timestamp == timestamp
    ensures r.analysis == m.verdict && r.agentDecision == m.agentDecision && r.recommendation == m.recommendation
    ensures (r.severity == "high" <==> m.severity == High) && (r.severity == "medium" <==> m.severity == Medium)
      && (r.severity == "low" <==> m.severity == Low)
    ensures (r.source == "email" <==> m.source == Email) && (r.source == "SMS" <==> m.source == Sms)
  {
    AuditRecord(id, input, m.verdict, m.severity.Name(), m.source.Name(), m.recommendation, m.agentDecision, timestamp)
  }

  /**
   * `lambda_handler(event, context)`. On success the record holds the
   * trimmed message, the verdict as its analysis, the verdict engine's
   * severity, source, recommendation and explanation, and the given id and
   * timestamp. A failure of any stage is the response's fault.
   */
  function Handle(event: Object, parse: string -> Option<Object>, classify: string -> Option<seq<Prediction>>,
                  formatScore: real -> string, id: string, timestamp: string): (r: Response)
    ensures SelectBody(event, parse).Failure? ==> r == ServerError(MalformedBody)
    ensures SelectBody(event, parse).Success? && UserInput(SelectBody(event, parse).value).Failure?
      ==> r == ServerError(UserInput(SelectBody(event, parse).value).error)
    ensures r.Ok? ==>
      && SelectBody(event, parse).Success?
      && UserInput(SelectBody(event, parse).value) == Success(r.record.message)
      && Classification(classify(r.record.message)).Success?
      && var (rawLabel, rawScore) := Classification(classify(r.record.message)).value;
         r.record == BuildRecord(id, r.record.message, GenerateMetadata(r.record.message, rawLabel, rawScore, formatScore), timestamp)
    ensures r.ServerError? && SelectBody(event, parse).Success? && UserInput(SelectBody(event, parse).value).Success?
      ==> r.fault == ClassifierFailed || r.fault == NoPrediction
  {
    match SelectBody(event, parse)
    case Failure(e) => ServerError(e)
    case Success(body) =>
      match UserInput(body)
      case Failure(e) => ServerError(e)
      case Success(input) =>
        match Classification(classify(input))
        case Failure(e) => ServerError(e)
        case Success(prediction) =>
          var m := GenerateMetadata(input, prediction.0, prediction.1, formatScore);
          Ok(BuildRecord(id, input, m, timestamp))
  }

  // ---------------------------------------------------------------------
  // Properties of the handler
  // ---------------------------------------------------------------------

  /**
   * A successful response carries the given id and timestamp, a non-empty
   * message, one of the three severities and the two sources, "Report to
   * authorities" exactly for high severity, and an explanation that quotes
   * the analysis.
   */
  lemma RecordShape(event: Object, parse: string -> Option<Object>, classify: string -> Option<seq<Prediction>>,
                    formatScore: real -> string, id: string, timestamp: string)
    requires Handle(event, parse, classify, formatScore, id, timestamp).Ok?
    ensures var rec := Handle(event, parse, classify, formatScore, id, timestamp).record;
      && rec.id == id && rec.timestamp == timestamp
      && rec.message != []
      && (rec.severity == "low" || rec.severity == "medium" || rec.severity == "high")
      && (rec.source == "email" || rec.source == "SMS")
      && (rec.recommendation == ReportAction <==> rec.severity == "high")
      && (rec.recommendation == ReportAction || rec.recommendation == IgnoreAction)
      && Contains(rec.agentDecision, rec.analysis)
  {
    var rec := Handle(event, parse, classify, formatScore, id, timestamp).record;
    var (rawLabel, rawScore) := Classification(classify(rec.message)).value;
    var m := GenerateMetadata(rec.message, rawLabel, rawScore, formatScore);
    assert rec == BuildRecord(id, rec.message, m, timestamp);
    assert m.severity == High <==> m.severity.Name() == "high";
  }

  /**
   * Once the body and the message are valid, the response is a record
   * exactly when the classifier gives a prediction, and otherwise carries
   * the classifier's fault: `ClassifierFailed` for a failed call,
   * `NoPrediction` for an empty answer.
   */
  lemma ValidMessageAnswered(event: Object, parse: string -> Option<Object>, classify: string -> Option<seq<Prediction>>,
                             formatScore: real -> string, id: string, timestamp: string, input: string)
    requires SelectBody(event, parse).Success? && UserInput(SelectBody(event, parse).value) == Success(input)
    ensures var r := Handle(event, parse, classify, formatScore, id, timestamp);
      && (r.Ok? <==> classify(input).Some? && classify(input).value != [])
      && (r.Ok? ==> r.record.message == input)
      && (r.ServerError? ==> r.fault == Classification(classify(input)).error)
      && (classify(input).None? ==> r == ServerError(ClassifierFailed))
      && (classify(input) == Some([]) ==> r == ServerError(NoPrediction))
  {
    var r := Handle(event, parse, classify, formatScore, id, timestamp);
    match Classification(classify(input))
    case Failure(e) =>
      assert r == ServerError(e);
    case Success(prediction) =>
      var m := GenerateMetadata(input, prediction.0, prediction.1, formatScore);
      assert r == Ok(BuildRecord(id, input, m, timestamp));
  }

  /**
   * A request whose message is missing or only whitespace is rejected with
   * the ValueError before the classifier is consulted, and only such a
   * request is.
   */
  lemma BlankMessageRejected(event: Object, parse: string -> Option<Object>, classify: string -> Option<seq<Prediction>>,
                             formatScore: real -> string, id: string, timestamp: string)
    requires SelectBody(event, parse).Success?
    ensures var body := SelectBody(event, parse).value;
      Handle(event, parse, classify, formatScore, id, timestamp) == ServerError(EmptyMessage)
      <==> "message" !in body || (body["message"].Str? && AllSpace(body["message"].s))
  {
  }

  /**
   * When the top prediction carries neither label nor score, the message is
   * judged as benign with score 0.0: it is reported safe exactly when it
   * hits fewer than two keywords.
   */
  lemma DefaultsApplied(event: Object, parse: string -> Option<Object>, classify: string -> Option<seq<Prediction>>,
                        formatScore: real -> string, id: string, timestamp: string, input: string, rest: seq<Prediction>)
    requires SelectBody(event, parse).Success? && UserInput(SelectBody(event, parse).value) == Success(input)
    requires classify(input) == Some([Prediction(None, None)] + rest)
    ensures var r := Handle(event, parse, classify, formatScore, id, timestamp);
      && r.Ok?
      && r.record == BuildRecord(id, input, GenerateMetadata(input, BenignLabel, DefaultScore, formatScore), timestamp)
      && (r.record.analysis == SafeVerdict <==> |KeywordHits(Lower(input))| < OverrideHits)
  {
    assert Classification(classify(input)) == Success((BenignLabel, DefaultScore));
    var m := GenerateMetadata(input, BenignLabel, DefaultScore, formatScore);
    assert Handle(event, parse, classify, formatScore, id, timestamp) == Ok(BuildRecord(id, input, m, timestamp));
    assert BenignLabel != MaliciousLabel;
  }

  /**
   * An API Gateway event whose string body decodes to an object is handled
   * exactly as a direct invocation with that object as the event.
   */
  lemma EncodedBodyUsed(event: Object, inner: Object, parse: string -> Option<Object>, classify: string -> Option<seq<Prediction>>,
                        formatScore: real -> string, id: string, timestamp: string)
    requires HasEncodedBody(event) && parse(event["body"].s) == Some(inner)
    requires !HasEncodedBody(inner)
    ensures Handle(event, parse, classify, formatScore, id, timestamp) == Handle(inner, parse, classify, formatScore, id, timestamp)
  {
  }
}
