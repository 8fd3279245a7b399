/** The deterministic fallback classifier (`create_basic_report`): ordered keyword rules over
    the lower-cased message, a direction scan and a lane-count scanner. */
module KeywordClassifier {
  import opened Json
  import opened Text
  import opened Vocabulary

  const AccidentWords: seq<string> := ["crash", "accident", "collision", "wreck"]
  const SpeedTrapWords: seq<string> := ["speed trap", "police", "radar", "cop"]
  const ConstructionWords: seq<string> := ["construction", "work zone", "road work"]
  const StalledWords: seq<string> := ["stalled", "broken down", "disabled"]
  const DebrisWords: seq<string> := ["debris", "object in road"]
  const ClosureWords: seq<string> := ["closed", "closure", "blocked"]

  const HighSeverityWords: seq<string> := ["major", "severe", "serious", "heavy traffic", "major delays"]
  const LowSeverityWords: seq<string> := ["minor", "small", "light", "cleared"]

  const DirectionPatterns: seq<string> :=
    ["northbound", "southbound", "eastbound", "westbound", "north", "south", "east", "west"]

  /** The keyword groups in the order they are tried, each with the type it yields. */
  const TypeRules: seq<(seq<string>, string)> := [
    (AccidentWords, "accident"),
    (SpeedTrapWords, "speed_trap"),
    (ConstructionWords, "construction"),
    (StalledWords, "stalled_vehicle"),
    (DebrisWords, "debris"),
    (ClosureWords, "road_closure")]

  /** The incident type read off a lower-cased message. */
  function DetectType(lower: string): string {
    if ContainsAny(lower, AccidentWords) then "accident"
    else if ContainsAny(lower, SpeedTrapWords) then "speed_trap"
    else if ContainsAny(lower, ConstructionWords) then "construction"
    else if ContainsAny(lower, StalledWords) then "stalled_vehicle"
    else if ContainsAny(lower, DebrisWords) then "debris"
    else if ContainsAny(lower, ClosureWords) then "road_closure"
    else "other"
  }

  /** The severity read off a lower-cased message; the high keywords are tried first. */
  function DetectSeverity(lower: string): string {
    if ContainsAny(lower, HighSeverityWords) then "high"
    else if ContainsAny(lower, LowSeverityWords) then "low"
    else "medium"
  }

  /** The first direction pattern that occurs in a lower-cased message. */
  function DetectDirection(lower: string): Option<string> {
    match FirstWhere(DirectionPatterns, (w: string) => Contains(lower, w))
    case None => None
    case Some(k) => Some(DirectionPatterns[k])
  }

  /** DetectType is the first rule of TypeRules whose group matches, or "other" when none does. */
  lemma DetectTypeIsFirstMatchingRule(lower: string)
    ensures DetectType(lower) ==
      match FirstWhere(TypeRules, (rule: (seq<string>, string)) => ContainsAny(lower, rule.0))
      case None => "other"
      case Some(k) => TypeRules[k].1
  {
    var p := (rule: (seq<string>, string)) => ContainsAny(lower, rule.0);
    if ContainsAny(lower, AccidentWords) {
      FirstWhereUnique(TypeRules, p, 0);
    } else if ContainsAny(lower, SpeedTrapWords) {
      FirstWhereUnique(TypeRules, p, 1);
    } else if ContainsAny(lower, ConstructionWords) {
      FirstWhereUnique(TypeRules, p, 2);
    } else if ContainsAny(lower, StalledWords) {
      FirstWhereUnique(TypeRules, p, 3);
    } else if ContainsAny(lower, DebrisWords) {
      FirstWhereUnique(TypeRules, p, 4);
    } else if ContainsAny(lower, ClosureWords) {
      FirstWhereUnique(TypeRules, p, 5);
    } else {
      assert forall j :: 0 <= j < |TypeRules| ==> !p(TypeRules[j]);
    }
  }

  /** A message naming both a major and a minor problem is high severity. */
  lemma HighSeverityWins(lower: string)
    requires Contains(lower, "major") && Contains(lower, "minor")
    ensures DetectSeverity(lower) == "high"
  {
    assert Contains(lower, HighSeverityWords[0]);
  }

  /** A direction found is the first pattern that occurs, so "eastbound" is reported
      rather than the "east" inside it; None means no pattern occurs. */
  lemma DetectDirectionIsFirstPattern(lower: string)
    ensures DetectDirection(lower).None? <==> forall k :: 0 <= k < |DirectionPatterns| ==> !Contains(lower, DirectionPatterns[k])
    ensures DetectDirection(lower).Some? ==>
      exists k :: (0 <= k < |DirectionPatterns| && DetectDirection(lower) == Some(DirectionPatterns[k])
        && Contains(lower, DirectionPatterns[k]) && forall j :: 0 <= j < k ==> !Contains(lower, DirectionPatterns[j]))
  {
    var p := (w: string) => Contains(lower, w);
    var r := FirstWhere(DirectionPatterns, p);
    assert forall k :: 0 <= k < |DirectionPatterns| ==> (p(DirectionPatterns[k]) <==> Contains(lower, DirectionPatterns[k]));
    if r.Some? {
      assert DetectDirection(lower) == Some(DirectionPatterns[r.value]);
    }
  }

  // ---------------------------------------------------------------------------
  // Lane count: the regular expression `(\d+)\s*lane`, searched leftmost-first.

  /** The end of the run of digits that starts at `i`. */
  function DigitRunEnd(s: string, i: nat): (j: nat)
    requires i <= |s|
    ensures i <= j <= |s|
    ensures forall k :: i <= k < j ==> IsDigit(s[k])
    ensures j == |s| || !IsDigit(s[j])
    decreases |s| - i
  {
    if i < |s| && IsDigit(s[i]) then DigitRunEnd(s, i + 1) else i
  }

  /** The end of the run of whitespace that starts at `i`. */
  function SpaceRunEnd(s: string, i: nat): (j: nat)
    requires i <= |s|
    ensures i <= j <= |s|
    ensures forall k :: i <= k < j ==> IsSpace(s[k])
    ensures j == |s| || !IsSpace(s[j])
    decreases |s| - i
  {
    if i < |s| && IsSpace(s[i]) then SpaceRunEnd(s, i + 1) else i
  }

  /** The pattern matches at `p` with group 1 spanning `p..j` and `\s*` spanning `j..k`. */
  predicate RegexMatch(s: string, p: nat, j: nat, k: nat) {
    p < j <= k <= |s|
    && (forall x :: p <= x < j ==> IsDigit(s[x]))
    && (forall x :: j <= x < k ==> IsSpace(s[x]))
    && OccursAt(s, "lane", k)
  }

  /** The pattern matches at `p` taking the whole digit run and the whole whitespace run,
      which is the first alternative a backtracking matcher tries. */
  predicate LaneMatchAt(s: string, p: nat) {
    p < |s| && IsDigit(s[p]) &&
    var j := DigitRunEnd(s, p);
    OccursAt(s, "lane", SpaceRunEnd(s, j))
  }

  /** The integer of group 1 for a match at `p`. */
  function LaneCountAt(s: string, p: nat): nat
    requires p < |s|
  {
    DigitsValue(s[p..DigitRunEnd(s, p)])
  }

  /** Every match of the pattern at `p` uses the whole digit run and the whole whitespace
      run: shorter runs would leave a digit or a space where "lane" must start. So the
      greedy reading LaneMatchAt is exactly "the pattern matches at p", and group 1 is
      determined. */
  lemma RegexMatchIsGreedy(s: string, p: nat, j: nat, k: nat)
    requires RegexMatch(s, p, j, k)
    ensures j == DigitRunEnd(s, p) && k == SpaceRunEnd(s, j)
    ensures LaneMatchAt(s, p)
  {
    assert s[k] == 'l';
    assert !IsDigit(s[j]) by {
      if j < k { assert IsSpace(s[j]); } else { assert s[j] == 'l'; }
    }
    DigitRunEndIs(s, p, j);
    SpaceRunEndIs(s, j, k);
  }

  lemma LaneMatchIsRegexMatch(s: string, p: nat)
    requires LaneMatchAt(s, p)
    ensures RegexMatch(s, p, DigitRunEnd(s, p), SpaceRunEnd(s, DigitRunEnd(s, p)))
  {
  }

  /** DigitRunEnd is the end of the digit run: the first non-digit from `i` on. */
  lemma {:induction false} DigitRunEndIs(s: string, i: nat, j: nat)
    requires i <= j <= |s|
    requires forall x :: i <= x < j ==> IsDigit(s[x])
    requires j == |s| || !IsDigit(s[j])
    ensures DigitRunEnd(s, i) == j
    decreases j - i
  {
    if i < j {
      DigitRunEndIs(s, i + 1, j);
    }
  }

  /** SpaceRunEnd is the end of the whitespace run: the first non-space from `i` on. */
  lemma {:induction false} SpaceRunEndIs(s: string, i: nat, j: nat)
    requires i <= j <= |s|
    requires forall x :: i <= x < j ==> IsSpace(s[x])
    requires j == |s| || !IsSpace(s[j])
    ensures SpaceRunEnd(s, i) == j
    decreases j - i
  {
    if i < j {
      SpaceRunEndIs(s, i + 1, j);
    }
  }

  /** A scanner for the pattern: it skips non-digits one at a time and whole digit runs
      that are not followed by optional whitespace and "lane". The result is the value
      of the leftmost match at or after `i`. */
  function ScanLanes(s: string, i: nat): (r: Option<nat>)
    requires i <= |s|
    ensures r.None? <==> forall q :: i <= q < |s| ==> !LaneMatchAt(s, q)
    ensures r.Some? ==>
      exists p :: (i <= p < |s| && LaneMatchAt(s, p) && r.value == LaneCountAt(s, p)
        && forall q :: i <= q < p ==> !LaneMatchAt(s, q))
    decreases |s| - i
  {
    if i == |s| then None
    else if !IsDigit(s[i]) then ScanLanes(s, i + 1)
    else
      var j := DigitRunEnd(s, i);
      if OccursAt(s, "lane", SpaceRunEnd(s, j)) then
        assert LaneMatchAt(s, i);
        Some(DigitsValue(s[i..j]))
      else
        assert forall q :: i <= q < j ==> !LaneMatchAt(s, q) by {
          forall q | i <= q < j ensures !LaneMatchAt(s, q) {
            DigitRunEndIs(s, q, j);
          }
        }
        ScanLanes(s, j)
  }

  /** `lanes_affected`: the integer of the leftmost match in the lower-cased message. */
  function DetectLanes(lower: string): Option<nat> {
    ScanLanes(lower, 0)
  }

  // ---------------------------------------------------------------------------
  // The report.

  /** What the keyword rules read off a message. */
  datatype Detected = Detected(incidentType: string, severity: string, direction: Option<string>, lanes: Option<nat>)

  /** The four keyword detections on a lower-cased message. */
  function Detect(lower: string): Detected {
    Detected(DetectType(lower), DetectSeverity(lower), DetectDirection(lower), DetectLanes(lower))
  }

  /** The report keys written by `create_basic_report`. */
  const BasicKeys: set<string> := {
    "incident_type", "location", "severity", "description", "direction", "lanes_affected",
    "estimated_delay", "time_mentioned", "processed_at", "original_input", "processing_method"}

  /** The dictionary `create_basic_report` returns, given what was detected. */
  function BasicReportOf(d: Detected, message: string, timestamp: string): Object {
    map[
      "incident_type" := JStr(d.incidentType),
      "location" := JStr(message),
      "severity" := JStr(d.severity),
      "description" := JStr("Basic analysis of: " + message),
      "direction" := OptionalStr(d.direction),
      "lanes_affected" := OptionalInt(d.lanes),
      "estimated_delay" := JNull,
      "time_mentioned" := JNull,
      "processed_at" := JStr(timestamp),
      "original_input" := JStr(message),
      "processing_method" := JStr("basic_keyword_detection")]
  }

  /** `create_basic_report(message)` with `processed_at` given as `timestamp`. */
  function BasicReport(message: string, timestamp: string): Object {
    BasicReportOf(Detect(Lower(message)), message, timestamp)
  }

  /** A basic report has always the same eleven keys. */
  lemma BasicReportKeys(d: Detected, message: string, timestamp: string)
    ensures BasicReportOf(d, message, timestamp).Keys == BasicKeys
  {
  }

  /** The values of a basic report: the message verbatim as location and original input and
      quoted in the description, null delay and time, the fixed method tag, and the detections. */
  lemma BasicReportShape(d: Detected, message: string, timestamp: string)
    ensures var r := BasicReportOf(d, message, timestamp);
      && r["location"] == JStr(message) && r["original_input"] == JStr(message)
      && r["description"] == JStr("Basic analysis of: " + message)
      && r["processing_method"] == JStr("basic_keyword_detection")
      && r["processed_at"] == JStr(timestamp)
      && r["estimated_delay"] == JNull && r["time_mentioned"] == JNull
      && r["incident_type"] == JStr(d.incidentType) && r["severity"] == JStr(d.severity)
      && r["direction"] == OptionalStr(d.direction) && r["lanes_affected"] == OptionalInt(d.lanes)
  {
  }

  /** The detected type is one of the eight, and never weather_hazard. */
  lemma DetectTypeInVocabulary(lower: string)
    ensures DetectType(lower) in IncidentTypes
    ensures DetectType(lower) != "weather_hazard"
  {
  }

  /** The detected severity is one of the three. */
  lemma DetectSeverityInVocabulary(lower: string)
    ensures DetectSeverity(lower) in Severities
  {
  }

  /** The basic report's type and severity are always in the vocabulary. */
  lemma BasicReportEnumsValid(message: string, timestamp: string)
    ensures var r := BasicReport(message, timestamp);
      && "incident_type" in r && r["incident_type"].JStr? && r["incident_type"].s in IncidentTypes
      && "severity" in r && r["severity"].JStr? && r["severity"].s in Severities
  {
    var d := Detect(Lower(message));
    BasicReportShape(d, message, timestamp);
    DetectTypeInVocabulary(Lower(message));
    DetectSeverityInVocabulary(Lower(message));
  }

  /** `create_basic_report`: the keyword chains are expressions, the direction is found by a
      `for ... break` loop over the patterns. */
  method CreateBasicReport(message: string, timestamp: string) returns (report: Object)
    ensures report == BasicReport(message, timestamp)
  {
    var lower := Lower(message);
    var incidentType := DetectType(lower);
    var severity := DetectSeverity(lower);
    var direction: Option<string> := None;
    var i := 0;
    while i < |DirectionPatterns|
      invariant 0 <= i <= |DirectionPatterns|
      invariant forall j :: 0 <= j < i ==> !Contains(lower, DirectionPatterns[j])
    {
      if Contains(lower, DirectionPatterns[i]) {
        direction := Some(DirectionPatterns[i]);
        FirstWhereUnique(DirectionPatterns, (w: string) => Contains(lower, w), i);
        break;
      }
      i := i + 1;
    }
    assert direction == DetectDirection(lower);
    var lanes := DetectLanes(lower);
    report := map[
      "incident_type" := JStr(incidentType),
      "location" := JStr(message),
      "severity" := JStr(severity),
      "description" := JStr("Basic analysis of: " + message),
      "direction" := OptionalStr(direction),
      "lanes_affected" := OptionalInt(lanes),
      "estimated_delay" := JNull,
      "time_mentioned" := JNull,
      "processed_at" := JStr(timestamp),
      "original_input" := JStr(message),
      "processing_method" := JStr("basic_keyword_detection")];
  }
}
