/** The `/report` endpoint (`report_incident`): the choice between the form path and the
    free-text path, and the fallback from the language model to keyword detection. The
    model's reply is the `aiOutcome` oracle and the clock is `timestamp`. */
module ReportPipeline {
  import opened Json
  import opened Text
  import opened Vocabulary
  import opened KeywordClassifier
  import opened StructuredNormalizer
  import opened AiClassifier

  /** The JSON response, by HTTP status: 200 with the report and the request echoed back,
      400 with a client error, 500 with the generic server error. */
  datatype Response =
    | Reported(report: Object, originalInput: Object)
    | BadRequest(error: string)
    | InternalError(error: string)

  function Status(r: Response): nat {
    match r
    case Reported(_, _) => 200
    case BadRequest(_) => 400
    case InternalError(_) => 500
  }

  const NoDataError := "No JSON data provided"
  const EmptyMessageError := "Message field is required and cannot be empty"
  const ServerError := "Failed to process incident report. Please try again."

  /** Both keys present selects the form path (their values are not looked at here). */
  predicate IsStructured(data: Object) {
    "incident_type" in data && "location" in data
  }

  /** The free-text path's report for a stripped, non-empty message: the model's report if
      it produced one, the keyword report if it raised anything at all. */
  function FreeTextReport(message: string, aiOutcome: ModelOutcome, timestamp: string): Object {
    match PlainReport(message, aiOutcome, timestamp)
    case Ok(r) => r
    case Err(_) => BasicReport(message, timestamp)
  }

  /** The form path's answer: the report, or a ValueError's message as a 400. */
  function FormResponse(result: Result<Object, Failure>, data: Object): Response {
    match result
    case Ok(r) => Reported(r, data)
    case Err(e) => if e.ValidationError? then BadRequest("Invalid input: " + e.message) else InternalError(ServerError)
  }

  /** `report_incident` on the decoded request body `data`. A ValueError escaping the form
      path becomes a 400 prefixed "Invalid input: "; a `message` that is present but not a
      string fails on `.strip()` and becomes the generic 500. */
  function Respond(data: Object, aiOutcome: ModelOutcome, timestamp: string): Response {
    if data == map[] then BadRequest(NoDataError)
    else if IsStructured(data) then FormResponse(StructuredReport(data, timestamp), data)
    else
      match GetOr(data, "message", JStr(""))
      case JStr(m) =>
        if AllSpace(m) then BadRequest(EmptyMessageError)
        else Reported(FreeTextReport(Strip(m), aiOutcome, timestamp), data)
      case _ => InternalError(ServerError)
  }

  // ---------------------------------------------------------------------------
  // Routing

  /** An empty body is refused before anything else is looked at. */
  lemma EmptyBodyRejected(aiOutcome: ModelOutcome, timestamp: string)
    ensures Respond(map[], aiOutcome, timestamp) == BadRequest(NoDataError)
    ensures Status(Respond(map[], aiOutcome, timestamp)) == 400
  {
  }

  /** The form path never consults the model: its answer is the form report's. */
  lemma FormPathIgnoresModel(data: Object, aiOutcome: ModelOutcome, timestamp: string)
    requires IsStructured(data)
    ensures Respond(data, aiOutcome, timestamp) == FormResponse(StructuredReport(data, timestamp), data)
  {
    assert "location" in data;
  }

  /** With the three required fields truthy the form path answers 200 with the normalised report. */
  lemma FormAccepted(data: Object, timestamp: string)
    requires !MissingIn(data, "incident_type") && !MissingIn(data, "location") && !MissingIn(data, "severity")
    ensures FormResponse(StructuredReport(data, timestamp), data) == Reported(StructuredFields(data, timestamp), data)
  {
    StructuredSucceedsIffRequiredPresent(data, timestamp);
    assert StructuredReport(data, timestamp) == Ok(StructuredFields(data, timestamp));
  }

  /** Otherwise it answers 400, naming the first missing required field after "Invalid input: ". */
  lemma FormRejected(data: Object, timestamp: string, k: nat)
    requires k < |RequiredFields| && MissingIn(data, RequiredFields[k])
    requires forall j :: 0 <= j < k ==> !MissingIn(data, RequiredFields[j])
    ensures FormResponse(StructuredReport(data, timestamp), data) ==
      BadRequest("Invalid input: Missing required field: " + RequiredFields[k])
  {
    StructuredRejectsFirstMissing(data, timestamp, k);
    assert "Invalid input: " + ("Missing required field: " + RequiredFields[k])
        == "Invalid input: Missing required field: " + RequiredFields[k];
  }

  /** On the free-text path, a missing or blank message is a 400 and a message that is not a
      string (null, a number, a list, an object) is a 500. */
  lemma MessageErrors(data: Object, aiOutcome: ModelOutcome, timestamp: string)
    requires data != map[] && !IsStructured(data)
    ensures "message" !in data ==> Respond(data, aiOutcome, timestamp) == BadRequest(EmptyMessageError)
    ensures "message" in data && data["message"].JStr? && Strip(data["message"].s) == [] ==>
      Respond(data, aiOutcome, timestamp) == BadRequest(EmptyMessageError)
    ensures "message" in data && !data["message"].JStr? ==>
      Respond(data, aiOutcome, timestamp) == InternalError(ServerError)
  {
    if "message" in data && data["message"].JStr? {
      StripEmptyIffBlank(data["message"].s);
    }
  }

  /** A non-blank free-text message is always answered 200, whatever the model does: the
      free-text report of the stripped message, echoing the request. */
  lemma FreeTextAlwaysReported(data: Object, message: string, aiOutcome: ModelOutcome, timestamp: string)
    requires data != map[] && !IsStructured(data)
    requires "message" in data && data["message"] == JStr(message) && Strip(message) != []
    ensures Respond(data, aiOutcome, timestamp) == Reported(FreeTextReport(Strip(message), aiOutcome, timestamp), data)
  {
    StripEmptyIffBlank(message);
    assert GetOr(data, "message", JStr("")) == JStr(message);
  }

  /** A successful model report is used as it is. */
  lemma ModelSuccessUsed(message: string, aiOutcome: ModelOutcome, timestamp: string)
    requires PlainReport(message, aiOutcome, timestamp).Ok?
    ensures FreeTextReport(message, aiOutcome, timestamp) == PlainReport(message, aiOutcome, timestamp).value
  {
  }

  /** Any failure of the model (call error, empty reply, bad JSON, missing field) falls back
      to the keyword report; none of them reaches the client. */
  lemma ModelFailureFallsBack(message: string, aiOutcome: ModelOutcome, timestamp: string)
    requires !aiOutcome.Parsed? || FirstAbsent(aiOutcome.fields).Some?
    ensures FreeTextReport(message, aiOutcome, timestamp) == BasicReport(message, timestamp)
  {
  }

  /** Whichever way the free-text path produced it, the report's incident type is in the
      vocabulary and its severity is low, medium or high. */
  lemma FreeTextEnumsValid(message: string, aiOutcome: ModelOutcome, timestamp: string)
    ensures var r := FreeTextReport(message, aiOutcome, timestamp);
      "incident_type" in r && "severity" in r && IsIncidentType(r["incident_type"]) && IsSeverity(r["severity"])
  {
    if PlainReport(message, aiOutcome, timestamp).Ok? {
      PlainEnumsValid(message, aiOutcome, timestamp);
    } else {
      BasicReportEnumsValid(message, timestamp);
    }
  }

  // ---------------------------------------------------------------------------
  // The endpoint, in the source's form.

  /** `report_incident`, with the `try`/`except` modelled by the Result values the helpers return. */
  method ReportIncident(data: Object, aiOutcome: ModelOutcome, timestamp: string) returns (resp: Response)
    ensures resp == Respond(data, aiOutcome, timestamp)
  {
    if data == map[] {
      return BadRequest(NoDataError);
    }
    if "incident_type" in data && "location" in data {
      var result := CreateStructuredReport(data, timestamp);
      match result {
        case Ok(r) => resp := Reported(r, data);
        case Err(e) =>
          if e.ValidationError? {
            resp := BadRequest("Invalid input: " + e.message);
          } else {
            resp := InternalError(ServerError);
          }
      }
      assert resp == FormResponse(result, data);
      return;
    }
    var raw := if "message" in data then data["message"] else JStr("");
    assert raw == GetOr(data, "message", JStr(""));
    if !raw.JStr? {
      return InternalError(ServerError);
    }
    var message := Strip(raw.s);
    StripEmptyIffBlank(raw.s);
    if message == "" {
      return BadRequest(EmptyMessageError);
    }
    assert Respond(data, aiOutcome, timestamp) == Reported(FreeTextReport(message, aiOutcome, timestamp), data);
    var ai := GenerateReport(message, aiOutcome, timestamp);
    var report: Object;
    if ai.Ok? {
      report := ai.value;
    } else {
      report := CreateBasicReport(message, timestamp);
    }
    assert report == FreeTextReport(message, aiOutcome, timestamp);
    resp := Reported(report, data);
  }
}
