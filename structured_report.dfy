/** The form-data path (`create_structured_report`): required-field validation, verbatim
    copying, and nulling of empty optional fields. */
module StructuredNormalizer {
  import opened Json
  import opened Text

  /** Checked in this order; the first falsy one is named in the error. */
  const RequiredFields: seq<string> := ["incident_type", "location", "severity"]

  /** The optional fields that are set to null when they are '' or None. */
  const NullableFields: set<string> := {"direction", "lanes_affected", "estimated_delay", "time_mentioned"}

  const StructuredKeys: set<string> := {
    "incident_type", "location", "severity", "description", "direction", "lanes_affected",
    "estimated_delay", "time_mentioned", "processed_at", "original_input", "processing_method"}

  /** `value == '' or value is None`. */
  predicate IsBlank(v: JsonValue) {
    v == JStr("") || v == JNull
  }

  /** An optional field after cleanup: blank becomes null, anything else is kept. */
  function Cleared(v: JsonValue): JsonValue {
    if IsBlank(v) then JNull else v
  }

  /** Whether required field `f` fails the `not data.get(f)` test. */
  predicate MissingIn(data: Object, f: string) {
    Falsy(Get(data, f))
  }

  /** The report on success: required fields copied as they are, `description` defaulting
      to '', each optional field either its non-blank input or null, and the metadata. */
  function StructuredFields(data: Object, timestamp: string): Object {
    map[
      "incident_type" := Get(data, "incident_type"),
      "location" := Get(data, "location"),
      "severity" := Get(data, "severity"),
      "description" := GetOr(data, "description", JStr("")),
      "direction" := Cleared(Get(data, "direction")),
      "lanes_affected" := Cleared(Get(data, "lanes_affected")),
      "estimated_delay" := Cleared(Get(data, "estimated_delay")),
      "time_mentioned" := Cleared(Get(data, "time_mentioned")),
      "processed_at" := JStr(timestamp),
      "original_input" := JObject(data),
      "processing_method" := JStr("structured_form")]
  }

  /** `create_structured_report(data)`: a ValueError naming the first missing required
      field, or the normalised report. */
  function StructuredReport(data: Object, timestamp: string): Result<Object, Failure> {
    match FirstWhere(RequiredFields, (f: string) => MissingIn(data, f))
    case Some(k) => Err(ValidationError("Missing required field: " + RequiredFields[k]))
    case None => Ok(StructuredFields(data, timestamp))
  }

  /** The error names the first required field, in the order incident_type, location,
      severity, whose value is absent or falsy. */
  lemma StructuredRejectsFirstMissing(data: Object, timestamp: string, k: nat)
    requires k < |RequiredFields| && MissingIn(data, RequiredFields[k])
    requires forall j :: 0 <= j < k ==> !MissingIn(data, RequiredFields[j])
    ensures StructuredReport(data, timestamp) == Err(ValidationError("Missing required field: " + RequiredFields[k]))
  {
    FirstWhereUnique(RequiredFields, (f: string) => MissingIn(data, f), k);
  }

  /** The report is produced exactly when all three required fields are truthy, and the
      only error is a ValueError. */
  lemma StructuredSucceedsIffRequiredPresent(data: Object, timestamp: string)
    ensures StructuredReport(data, timestamp).Ok? <==>
      !MissingIn(data, "incident_type") && !MissingIn(data, "location") && !MissingIn(data, "severity")
    ensures StructuredReport(data, timestamp).Err? ==> StructuredReport(data, timestamp).error.ValidationError?
  {
    var p := (f: string) => MissingIn(data, f);
    assert forall j :: 0 <= j < |RequiredFields| ==> (p(RequiredFields[j]) <==> MissingIn(data, RequiredFields[j]));
  }

  /** The report has the fixed eleven keys. */
  lemma StructuredKeysFixed(data: Object, timestamp: string)
    ensures StructuredFields(data, timestamp).Keys == StructuredKeys
  {
  }

  /** Required fields and the description are copied without any enum repair; the
      description defaults to '' and is never nulled. */
  lemma StructuredCopiesVerbatim(data: Object, timestamp: string)
    requires StructuredReport(data, timestamp).Ok?
    ensures var r := StructuredReport(data, timestamp).value;
      && r["incident_type"] == data["incident_type"]
      && r["location"] == data["location"]
      && r["severity"] == data["severity"]
      && r["description"] == (if "description" in data then data["description"] else JStr(""))
  {
    StructuredSucceedsIffRequiredPresent(data, timestamp);
  }

  /** An optional field keeps its input value unless that is '' or None (or absent), in which
      case it is null. */
  lemma StructuredClearsBlankOptionals(data: Object, timestamp: string, f: string)
    requires f in NullableFields
    ensures Cleared(Get(data, f)) == (if f in data && !IsBlank(data[f]) then data[f] else JNull)
    ensures StructuredFields(data, timestamp)[f] == Cleared(Get(data, f))
  {
  }

  /** The metadata: the whole input map as original input, the timestamp, and the method tag. */
  lemma StructuredMetadata(data: Object, timestamp: string)
    ensures StructuredFields(data, timestamp)["original_input"] == JObject(data)
    ensures StructuredFields(data, timestamp)["processed_at"] == JStr(timestamp)
    ensures StructuredFields(data, timestamp)["processing_method"] == JStr("structured_form")
  {
  }

  /** The dictionary as first built, before the blank optional fields are nulled. */
  function RawReport(data: Object, timestamp: string): Object {
    map[
      "incident_type" := Get(data, "incident_type"),
      "location" := Get(data, "location"),
      "severity" := Get(data, "severity"),
      "description" := GetOr(data, "description", JStr("")),
      "direction" := Get(data, "direction"),
      "lanes_affected" := Get(data, "lanes_affected"),
      "estimated_delay" := Get(data, "estimated_delay"),
      "time_mentioned" := Get(data, "time_mentioned"),
      "processed_at" := JStr(timestamp),
      "original_input" := JObject(data),
      "processing_method" := JStr("structured_form")]
  }

  /** Nulling the blank optional fields of the first dictionary gives the report. */
  lemma CleanupGivesStructuredFields(data: Object, timestamp: string, report: Object)
    requires report.Keys == RawReport(data, timestamp).Keys
    requires forall k :: k in RawReport(data, timestamp) ==>
      report[k] == (if k in NullableFields then Cleared(RawReport(data, timestamp)[k]) else RawReport(data, timestamp)[k])
    ensures report == StructuredFields(data, timestamp)
  {
    var raw := RawReport(data, timestamp);
    var want := StructuredFields(data, timestamp);
    assert report.Keys == want.Keys;
    forall k | k in want ensures report[k] == want[k] {
      if k in NullableFields {
        assert report[k] == Cleared(raw[k]);
      } else {
        assert report[k] == raw[k];
      }
    }
  }

  /** The loop over `report.items()`: every blank optional field becomes null, nothing else changes. */
  method ClearBlankOptionals(raw: Object) returns (report: Object)
    ensures report.Keys == raw.Keys
    ensures forall k :: k in raw ==> report[k] == (if k in NullableFields then Cleared(raw[k]) else raw[k])
  {
    report := raw;
    var pending := raw.Keys;
    while pending != {}
      invariant pending <= raw.Keys
      invariant report.Keys == raw.Keys
      invariant forall k :: k in raw ==>
        report[k] == (if k !in pending && k in NullableFields then Cleared(raw[k]) else raw[k])
      decreases pending
    {
      var key :| key in pending;
      if IsBlank(report[key]) && key in NullableFields {
        report := report[key := JNull];
      }
      pending := pending - {key};
    }
  }

  /** `create_structured_report`: a loop over the required fields that raises on the first
      falsy one, then the report dictionary, then the cleanup loop. */
  method CreateStructuredReport(data: Object, timestamp: string) returns (r: Result<Object, Failure>)
    ensures r == StructuredReport(data, timestamp)
  {
    var i := 0;
    while i < |RequiredFields|
      invariant 0 <= i <= |RequiredFields|
      invariant forall j :: 0 <= j < i ==> !MissingIn(data, RequiredFields[j])
    {
      if Falsy(Get(data, RequiredFields[i])) {
        StructuredRejectsFirstMissing(data, timestamp, i);
        return Err(ValidationError("Missing required field: " + RequiredFields[i]));
      }
      i := i + 1;
    }
    StructuredSucceedsIffRequiredPresent(data, timestamp);
    var report := ClearBlankOptionals(RawReport(data, timestamp));
    CleanupGivesStructuredFields(data, timestamp, report);
    r := Ok(report);
  }
}
