/** The checks and repairs `IncidentReporter` applies around the language-model call
    (`generate_report` and `generate_enhanced_report`). The call and `json.loads` are one
    oracle, given as a parameter: it fails, returns empty content, returns text that is not
    JSON, or returns a parsed JSON object. */
module AiClassifier {
  import opened Json
  import opened Text
  import opened Vocabulary

  /** What the model call and the JSON decoding produced. */
  datatype ModelOutcome =
    | CallFailed            // the client raised (transport, authentication, quota)
    | EmptyContent          // the reply's content was None or ''
    | Unparseable           // `json.loads` raised JSONDecodeError
    | Parsed(fields: Object)

  /** The exceptions raised inside the `try` block, before they are remapped. */
  datatype Raised = ApiError | EmptyResponse | DecodeError | MissingField(name: string)

  /** Checked in this order for presence (not truthiness). */
  const AiRequiredFields: seq<string> := ["incident_type", "location", "severity", "description"]

  /** The opaque failures `generate_report` raises. */
  const ClassifyFailure := ServiceError("Failed to classify incident with AI service")
  const ParseFailure := ServiceError("Failed to parse incident classification response")

  /** The opaque failures `generate_enhanced_report` raises. */
  const EnhancedFailure := ServiceError("Failed to generate enhanced incident analysis")
  const EnhancedParseFailure := ServiceError("Failed to parse enhanced incident analysis")

  /** An `incident_type` outside the vocabulary is replaced by `fallback`. */
  function RepairType(v: JsonValue, fallback: JsonValue): JsonValue {
    if IsIncidentType(v) then v else fallback
  }

  /** A `severity` outside the vocabulary is replaced by "medium". */
  function RepairSeverity(v: JsonValue): JsonValue {
    if IsSeverity(v) then v else JStr("medium")
  }

  /** The required field first found absent, if any. */
  function FirstAbsent(fields: Object): Option<string> {
    match FirstWhere(AiRequiredFields, (f: string) => f !in fields)
    case None => None
    case Some(k) => Some(AiRequiredFields[k])
  }

  /** The `try` block up to the metadata: the outcome checked for content, for JSON and for
      the required fields, then the two enum repairs. */
  function Validated(outcome: ModelOutcome, typeFallback: JsonValue): Result<Object, Raised> {
    match outcome
    case CallFailed => Err(ApiError)
    case EmptyContent => Err(EmptyResponse)
    case Unparseable => Err(DecodeError)
    case Parsed(fields) =>
      match FirstAbsent(fields)
      case Some(f) => Err(MissingField(f))
      case None => Ok(Repaired(fields, typeFallback))
  }

  /** The parsed object with its two enum fields repaired. */
  function Repaired(fields: Object, typeFallback: JsonValue): Object
    requires "incident_type" in fields && "severity" in fields
  {
    fields["incident_type" := RepairType(fields["incident_type"], typeFallback)]
          ["severity" := RepairSeverity(fields["severity"])]
  }

  /** The two `except` clauses: a decode error gets its own message, everything else the generic one. */
  function Remap(e: Raised, parseFailure: Failure, otherFailure: Failure): Failure {
    if e == DecodeError then parseFailure else otherFailure
  }

  /** `generate_report(user_input)` with the model's answer as `outcome` and the clock as `timestamp`. */
  function PlainReport(userInput: string, outcome: ModelOutcome, timestamp: string): Result<Object, Failure> {
    if AllSpace(userInput) then Err(ValidationError("Input message cannot be empty"))
    else
      match Validated(outcome, JStr("other"))
      case Err(e) => Err(Remap(e, ParseFailure, ClassifyFailure))
      case Ok(r) => Ok(Stamped(r, userInput, timestamp))
  }

  /** The plain path's metadata: the timestamp and the raw input. */
  function Stamped(r: Object, userInput: string, timestamp: string): Object {
    r["processed_at" := JStr(timestamp)]["original_input" := JStr(userInput)]
  }

  /** `generate_enhanced_report(incident_type, coordinates, road_info)` likewise; the
      coordinates and road information are the dicts its signature declares. */
  function EnhancedReport(incidentType: string, coordinates: Object, roadInfo: Object,
                          outcome: ModelOutcome, timestamp: string): Result<Object, Failure>
  {
    if incidentType == "" then Err(ValidationError("Incident type is required"))
    else
      match Validated(outcome, JStr(incidentType))
      case Err(e) => Err(Remap(e, EnhancedParseFailure, EnhancedFailure))
      case Ok(r) => Ok(EnhancedStamped(r, JObject(coordinates), JObject(roadInfo), timestamp))
  }

  /** The enhanced path's metadata: the timestamp, the location context and the method tag. */
  function EnhancedStamped(r: Object, coordinates: JsonValue, roadInfo: JsonValue, timestamp: string): Object {
    r["processed_at" := JStr(timestamp)]["coordinates" := coordinates]["road_info" := roadInfo]
     ["processing_method" := JStr("ai_enhanced_location_analysis")]
  }

  // ---------------------------------------------------------------------------
  // Properties of validation and repair, shared by both entry points.

  /** A repaired type is the input when that is valid and the fallback otherwise; repairing
      twice changes nothing more. */
  lemma RepairTypeSpec(v: JsonValue, fallback: JsonValue)
    ensures IsIncidentType(v) ==> RepairType(v, fallback) == v
    ensures !IsIncidentType(v) ==> RepairType(v, fallback) == fallback
    ensures IsIncidentType(fallback) ==> IsIncidentType(RepairType(v, fallback))
    ensures RepairType(RepairType(v, fallback), fallback) == RepairType(v, fallback)
  {
  }

  /** A repaired severity is always valid, the input when that was valid, "medium" otherwise. */
  lemma RepairSeveritySpec(v: JsonValue)
    ensures IsSeverity(RepairSeverity(v))
    ensures IsSeverity(v) ==> RepairSeverity(v) == v
    ensures !IsSeverity(v) ==> RepairSeverity(v) == JStr("medium")
  {
  }

  /** FirstAbsent names the first required field, in order, that is not a key. */
  lemma FirstAbsentSpec(fields: Object)
    ensures FirstAbsent(fields).None? <==> forall k :: 0 <= k < |AiRequiredFields| ==> AiRequiredFields[k] in fields
    ensures FirstAbsent(fields).Some? ==>
      exists k :: (0 <= k < |AiRequiredFields| && FirstAbsent(fields) == Some(AiRequiredFields[k])
        && AiRequiredFields[k] !in fields && forall j :: 0 <= j < k ==> AiRequiredFields[j] in fields)
  {
    var p := (f: string) => f !in fields;
    assert forall k :: 0 <= k < |AiRequiredFields| ==> (p(AiRequiredFields[k]) <==> AiRequiredFields[k] !in fields);
    var r := FirstWhere(AiRequiredFields, p);
    if r.Some? {
      assert FirstAbsent(fields) == Some(AiRequiredFields[r.value]);
    }
  }

  /** Validation succeeds exactly on a parsed object that has all four required keys; it then
      changes only `incident_type` and `severity`, and only to repair them. */
  lemma ValidatedSpec(outcome: ModelOutcome, fallback: JsonValue)
    ensures Validated(outcome, fallback).Ok? <==>
      outcome.Parsed? && forall k :: 0 <= k < |AiRequiredFields| ==> AiRequiredFields[k] in outcome.fields
    ensures Validated(outcome, fallback).Ok? ==>
      var fields, r := outcome.fields, Validated(outcome, fallback).value;
      && r.Keys == fields.Keys
      && r["incident_type"] == RepairType(fields["incident_type"], fallback)
      && r["severity"] == RepairSeverity(fields["severity"])
      && forall k :: k in fields && k != "incident_type" && k != "severity" ==> r[k] == fields[k]
  {
    if outcome.Parsed? {
      FirstAbsentSpec(outcome.fields);
      if FirstAbsent(outcome.fields).None? {
        assert AiRequiredFields[0] in outcome.fields && AiRequiredFields[2] in outcome.fields;
      }
    }
  }

  // ---------------------------------------------------------------------------
  // generate_report

  /** Input that is empty after stripping is a ValueError, raised before the model is consulted. */
  lemma PlainRejectsBlankInput(userInput: string, outcome: ModelOutcome, timestamp: string)
    requires Strip(userInput) == []
    ensures PlainReport(userInput, outcome, timestamp) == Err(ValidationError("Input message cannot be empty"))
  {
    StripEmptyIffBlank(userInput);
  }

  /** After the input guard every failure is an opaque ServiceError: a decode error reads
      "Failed to parse ...", every other failure (call error, empty content, missing field)
      the generic message. No ValueError escapes. */
  lemma PlainFailuresAreOpaque(userInput: string, outcome: ModelOutcome, timestamp: string)
    requires Strip(userInput) != []
    ensures PlainReport(userInput, outcome, timestamp).Err? ==>
      PlainReport(userInput, outcome, timestamp).error ==
        (if outcome == Unparseable then ParseFailure else ClassifyFailure)
    ensures PlainReport(userInput, outcome, timestamp).Err? <==> Validated(outcome, JStr("other")).Err?
  {
    StripEmptyIffBlank(userInput);
  }

  /** Repair changes only the two enum fields, and only as RepairType and RepairSeverity say. */
  lemma RepairedSpec(fields: Object, fallback: JsonValue)
    requires "incident_type" in fields && "severity" in fields
    ensures var r := Repaired(fields, fallback);
      && r.Keys == fields.Keys
      && r["incident_type"] == RepairType(fields["incident_type"], fallback)
      && r["severity"] == RepairSeverity(fields["severity"])
      && forall k :: k in fields && k != "incident_type" && k != "severity" ==> r[k] == fields[k]
  {
  }

  /** A successful plain report comes from a parsed object with every required key, repaired
      and stamped. */
  lemma PlainOk(userInput: string, outcome: ModelOutcome, timestamp: string)
    requires PlainReport(userInput, outcome, timestamp).Ok?
    ensures outcome.Parsed?
    ensures forall k :: 0 <= k < |AiRequiredFields| ==> AiRequiredFields[k] in outcome.fields
    ensures "incident_type" in outcome.fields && "severity" in outcome.fields
    ensures PlainReport(userInput, outcome, timestamp).value ==
      Stamped(Repaired(outcome.fields, JStr("other")), userInput, timestamp)
  {
    FirstAbsentSpec(outcome.fields);
    assert "incident_type" == AiRequiredFields[0] && "severity" == AiRequiredFields[2];
  }

  /** A successful plain report has a type in the vocabulary (a bad one became "other") and a
      valid severity (a bad one became "medium"); valid values are left as they were. */
  lemma PlainRepairsEnums(userInput: string, fields: Object, timestamp: string)
    requires PlainReport(userInput, Parsed(fields), timestamp).Ok?
    ensures var r := PlainReport(userInput, Parsed(fields), timestamp).value;
      && IsIncidentType(r["incident_type"]) && IsSeverity(r["severity"])
      && r["incident_type"] == (if IsIncidentType(fields["incident_type"]) then fields["incident_type"] else JStr("other"))
      && r["severity"] == (if IsSeverity(fields["severity"]) then fields["severity"] else JStr("medium"))
  {
    PlainOk(userInput, Parsed(fields), timestamp);
    var v := Repaired(fields, JStr("other"));
    RepairedSpec(fields, JStr("other"));
    var r := Stamped(v, userInput, timestamp);
    assert r["incident_type"] == v["incident_type"] && r["severity"] == v["severity"];
    RepairTypeSpec(fields["incident_type"], JStr("other"));
    RepairSeveritySpec(fields["severity"]);
  }

  /** Whatever the model answered, a successful plain report has both enum fields, in the vocabulary. */
  lemma PlainEnumsValid(userInput: string, outcome: ModelOutcome, timestamp: string)
    requires PlainReport(userInput, outcome, timestamp).Ok?
    ensures var r := PlainReport(userInput, outcome, timestamp).value;
      "incident_type" in r && "severity" in r && IsIncidentType(r["incident_type"]) && IsSeverity(r["severity"])
  {
    PlainOk(userInput, outcome, timestamp);
    PlainRepairsEnums(userInput, outcome.fields, timestamp);
    RepairedSpec(outcome.fields, JStr("other"));
  }

  /** Apart from the two repaired fields and the metadata, every key and value of the parsed
      object is returned unchanged; the metadata is the timestamp and the raw input. */
  lemma PlainKeepsOtherFields(userInput: string, fields: Object, timestamp: string)
    requires PlainReport(userInput, Parsed(fields), timestamp).Ok?
    ensures var r := PlainReport(userInput, Parsed(fields), timestamp).value;
      && r.Keys == fields.Keys + {"processed_at", "original_input"}
      && r["processed_at"] == JStr(timestamp) && r["original_input"] == JStr(userInput)
      && forall k :: k in fields && k !in {"incident_type", "severity", "processed_at", "original_input"} ==> r[k] == fields[k]
  {
    PlainOk(userInput, Parsed(fields), timestamp);
    RepairedSpec(fields, JStr("other"));
    var v := Repaired(fields, JStr("other"));
    var r := Stamped(v, userInput, timestamp);
    assert r.Keys == v.Keys + {"processed_at", "original_input"};
    forall k | k in fields && k !in {"incident_type", "severity", "processed_at", "original_input"}
      ensures r[k] == fields[k]
    {
      assert r[k] == v[k];
    }
  }

  /** Repairing an object whose enum fields are already valid changes nothing. */
  lemma RepairedFixesValid(fields: Object, fallback: JsonValue)
    requires "incident_type" in fields && "severity" in fields
    requires IsIncidentType(fields["incident_type"]) && IsSeverity(fields["severity"])
    ensures Repaired(fields, fallback) == fields
  {
    RepairedSpec(fields, fallback);
  }

  /** Stamping twice with the same input and clock is stamping once. */
  lemma StampedTwice(r: Object, userInput: string, timestamp: string)
    ensures Stamped(Stamped(r, userInput, timestamp), userInput, timestamp) == Stamped(r, userInput, timestamp)
  {
  }

  /** Feeding a plain report back through validation, with the same input and clock, gives
      the same report: repair and stamping are idempotent. */
  lemma PlainIdempotent(userInput: string, fields: Object, timestamp: string)
    requires PlainReport(userInput, Parsed(fields), timestamp).Ok?
    ensures var r := PlainReport(userInput, Parsed(fields), timestamp).value;
      PlainReport(userInput, Parsed(r), timestamp) == Ok(r)
  {
    PlainOk(userInput, Parsed(fields), timestamp);
    var v := Repaired(fields, JStr("other"));
    var r := Stamped(v, userInput, timestamp);
    PlainRepairsEnums(userInput, fields, timestamp);
    PlainKeepsOtherFields(userInput, fields, timestamp);
    FirstAbsentSpec(r);
    assert FirstAbsent(r).None?;
    RepairedFixesValid(r, JStr("other"));
    assert Validated(Parsed(r), JStr("other")) == Ok(r);
    StampedTwice(v, userInput, timestamp);
  }

  // ---------------------------------------------------------------------------
  // generate_enhanced_report

  /** An empty incident type is a ValueError, raised before the model is consulted. */
  lemma EnhancedRejectsEmptyType(coordinates: Object, roadInfo: Object, outcome: ModelOutcome, timestamp: string)
    ensures EnhancedReport("", coordinates, roadInfo, outcome, timestamp) == Err(ValidationError("Incident type is required"))
  {
  }

  /** After the guard every failure is one of the two opaque ServiceErrors. */
  lemma EnhancedFailuresAreOpaque(incidentType: string, coordinates: Object, roadInfo: Object,
                                  outcome: ModelOutcome, timestamp: string)
    requires incidentType != ""
    ensures EnhancedReport(incidentType, coordinates, roadInfo, outcome, timestamp).Err? ==>
      EnhancedReport(incidentType, coordinates, roadInfo, outcome, timestamp).error ==
        (if outcome == Unparseable then EnhancedParseFailure else EnhancedFailure)
  {
  }

  /** A successful enhanced report comes from a parsed object with every required key,
      repaired against the caller's type and stamped. */
  lemma EnhancedOk(incidentType: string, coordinates: Object, roadInfo: Object,
                   outcome: ModelOutcome, timestamp: string)
    requires EnhancedReport(incidentType, coordinates, roadInfo, outcome, timestamp).Ok?
    ensures outcome.Parsed?
    ensures forall k :: 0 <= k < |AiRequiredFields| ==> AiRequiredFields[k] in outcome.fields
    ensures "incident_type" in outcome.fields && "severity" in outcome.fields
    ensures EnhancedReport(incidentType, coordinates, roadInfo, outcome, timestamp).value ==
      EnhancedStamped(Repaired(outcome.fields, JStr(incidentType)), JObject(coordinates), JObject(roadInfo), timestamp)
  {
    FirstAbsentSpec(outcome.fields);
    assert "incident_type" == AiRequiredFields[0] && "severity" == AiRequiredFields[2];
  }

  /** Enhanced stamping adds or overwrites the four metadata keys and touches nothing else. */
  lemma EnhancedStampedSpec(r: Object, coordinates: JsonValue, roadInfo: JsonValue, timestamp: string)
    ensures var s := EnhancedStamped(r, coordinates, roadInfo, timestamp);
      && s.Keys == r.Keys + {"processed_at", "coordinates", "road_info", "processing_method"}
      && s["processed_at"] == JStr(timestamp)
      && s["coordinates"] == coordinates && s["road_info"] == roadInfo
      && s["processing_method"] == JStr("ai_enhanced_location_analysis")
      && forall k :: k in r && k !in {"processed_at", "coordinates", "road_info", "processing_method"} ==> s[k] == r[k]
  {
  }

  /** An invalid type is replaced by the caller's type, which is not itself checked: the
      result is in the vocabulary whenever the caller's type is. Severity is repaired as on
      the plain path. */
  lemma EnhancedRepairsEnums(incidentType: string, coordinates: Object, roadInfo: Object,
                             fields: Object, timestamp: string)
    requires EnhancedReport(incidentType, coordinates, roadInfo, Parsed(fields), timestamp).Ok?
    ensures var r := EnhancedReport(incidentType, coordinates, roadInfo, Parsed(fields), timestamp).value;
      && r["incident_type"] == (if IsIncidentType(fields["incident_type"]) then fields["incident_type"] else JStr(incidentType))
      && (incidentType in IncidentTypes ==> IsIncidentType(r["incident_type"]))
      && r["severity"] == (if IsSeverity(fields["severity"]) then fields["severity"] else JStr("medium"))
      && IsSeverity(r["severity"])
  {
    EnhancedOk(incidentType, coordinates, roadInfo, Parsed(fields), timestamp);
    RepairedSpec(fields, JStr(incidentType));
    var v := Repaired(fields, JStr(incidentType));
    var r := EnhancedStamped(v, JObject(coordinates), JObject(roadInfo), timestamp);
    assert r["incident_type"] == v["incident_type"] && r["severity"] == v["severity"];
    RepairTypeSpec(fields["incident_type"], JStr(incidentType));
    RepairSeveritySpec(fields["severity"]);
  }

  /** The caller's type is used unchecked: an out-of-vocabulary answer together with an
      out-of-vocabulary caller type yields a report whose type is outside the vocabulary. */
  lemma EnhancedTypeCanLeaveVocabulary()
    ensures var fields := map["incident_type" := JStr("unknown"), "location" := JStr("I-95"),
                               "severity" := JStr("high"), "description" := JStr("")];
      var r := EnhancedReport("pothole", map[], map[], Parsed(fields), "t");
      r.Ok? && r.value["incident_type"] == JStr("pothole") && !IsIncidentType(r.value["incident_type"])
  {
    var fields := map["incident_type" := JStr("unknown"), "location" := JStr("I-95"),
                      "severity" := JStr("high"), "description" := JStr("")];
    FirstAbsentSpec(fields);
    assert FirstAbsent(fields) == None;
  }

  /** Other keys and values pass through; the metadata is the timestamp, the coordinates and
      road information verbatim, and the processing-method tag. */
  lemma EnhancedKeepsOtherFields(incidentType: string, coordinates: Object, roadInfo: Object,
                                 fields: Object, timestamp: string)
    requires EnhancedReport(incidentType, coordinates, roadInfo, Parsed(fields), timestamp).Ok?
    ensures var r := EnhancedReport(incidentType, coordinates, roadInfo, Parsed(fields), timestamp).value;
      && r.Keys == fields.Keys + {"processed_at", "coordinates", "road_info", "processing_method"}
      && r["processed_at"] == JStr(timestamp)
      && r["coordinates"] == JObject(coordinates) && r["road_info"] == JObject(roadInfo)
      && r["processing_method"] == JStr("ai_enhanced_location_analysis")
      && forall k :: k in fields && k !in {"incident_type", "severity", "processed_at", "coordinates", "road_info", "processing_method"}
           ==> r[k] == fields[k]
  {
    EnhancedOk(incidentType, coordinates, roadInfo, Parsed(fields), timestamp);
    RepairedSpec(fields, JStr(incidentType));
    EnhancedStampedSpec(Repaired(fields, JStr(incidentType)), JObject(coordinates), JObject(roadInfo), timestamp);
  }

  // ---------------------------------------------------------------------------
  // The methods, in the source's imperative form.

  /** The `for field in required_fields` loop that stops at the first absent key. */
  method FirstMissingField(fields: Object) returns (missing: Option<string>)
    ensures missing == FirstAbsent(fields)
  {
    var i := 0;
    while i < |AiRequiredFields|
      invariant 0 <= i <= |AiRequiredFields|
      invariant forall j :: 0 <= j < i ==> AiRequiredFields[j] in fields
    {
      if AiRequiredFields[i] !in fields {
        FirstWhereUnique(AiRequiredFields, (f: string) => f !in fields, i);
        return Some(AiRequiredFields[i]);
      }
      i := i + 1;
    }
    FirstAbsentSpec(fields);
    missing := None;
  }

  /** The shared part of both `try` blocks: content check, decoding, required fields, and the
      in-place repairs of `incident_type` and `severity`. */
  method ValidateAndRepair(outcome: ModelOutcome, typeFallback: JsonValue) returns (res: Result<Object, Raised>)
    ensures res == Validated(outcome, typeFallback)
  {
    match outcome {
      case CallFailed => res := Err(ApiError);
      case EmptyContent => res := Err(EmptyResponse);
      case Unparseable => res := Err(DecodeError);
      case Parsed(fields) =>
        var missing := FirstMissingField(fields);
        if missing.Some? {
          return Err(MissingField(missing.value));
        }
        FirstAbsentSpec(fields);
        assert "incident_type" == AiRequiredFields[0] && "severity" == AiRequiredFields[2];
        var report := fields;
        if !IsIncidentType(report["incident_type"]) {
          report := report["incident_type" := typeFallback];
        }
        assert report == fields["incident_type" := RepairType(fields["incident_type"], typeFallback)];
        if !IsSeverity(report["severity"]) {
          report := report["severity" := JStr("medium")];
        }
        assert report == Repaired(fields, typeFallback);
        res := Ok(report);
    }
  }

  /** `IncidentReporter.generate_report`. */
  method GenerateReport(userInput: string, outcome: ModelOutcome, timestamp: string) returns (r: Result<Object, Failure>)
    ensures r == PlainReport(userInput, outcome, timestamp)
  {
    StripEmptyIffBlank(userInput);
    if userInput == "" || Strip(userInput) == "" {
      return Err(ValidationError("Input message cannot be empty"));
    }
    assert !AllSpace(userInput);
    var attempt := ValidateAndRepair(outcome, JStr("other"));
    match attempt {
      case Err(e) =>
        r := Err(if e == DecodeError then ParseFailure else ClassifyFailure);
        assert r == Err(Remap(e, ParseFailure, ClassifyFailure));
      case Ok(report) =>
        var stamped := report["processed_at" := JStr(timestamp)];
        stamped := stamped["original_input" := JStr(userInput)];
        assert stamped == Stamped(report, userInput, timestamp);
        r := Ok(stamped);
    }
  }

  /** `IncidentReporter.generate_enhanced_report`; the prompt it builds from the road
      information and coordinates only feeds the model. */
  method GenerateEnhancedReport(incidentType: string, coordinates: Object, roadInfo: Object,
                                outcome: ModelOutcome, timestamp: string) returns (r: Result<Object, Failure>)
    ensures r == EnhancedReport(incidentType, coordinates, roadInfo, outcome, timestamp)
  {
    if incidentType == "" {
      return Err(ValidationError("Incident type is required"));
    }
    var attempt := ValidateAndRepair(outcome, JStr(incidentType));
    match attempt {
      case Err(e) =>
        r := Err(if e == DecodeError then EnhancedParseFailure else EnhancedFailure);
      case Ok(report) =>
        var stamped := report["processed_at" := JStr(timestamp)];
        stamped := stamped["coordinates" := JObject(coordinates)];
        stamped := stamped["road_info" := JObject(roadInfo)];
        stamped := stamped["processing_method" := JStr("ai_enhanced_location_analysis")];
        r := Ok(stamped);
    }
  }
}
