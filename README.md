# DriveMind incident-report pipeline, modelled in Dafny

DriveMind is a small Flask service. It turns a traffic-incident report into one canonical
report dictionary. The report arrives one of three ways:

- as a structured form,
- as a free-text message, classified by a language model and, when that fails, by keyword rules,
- as a location, reverse-geocoded into road attributes.

This project models that normalisation logic and proves what it guarantees.

Modules, one per component of the service:

- `Json`: decoded JSON values and Python truthiness (`Falsy`). It also has `dict.get`, `Option` and `Result`.
- `Text`: ASCII `str.lower`, `str.strip` and `in` on strings. It also has `FirstWhere`, the first-match scan that every `for … break` loop in the service performs.
- `Vocabulary`: the eight incident types and the three severities.
- `RoadInfoExtractor`: `extract_road_info` over the address components of a geocoding result.
- `KeywordClassifier`: `create_basic_report`. It has the ordered keyword rules, the direction scan, and a direct scanner for the lane regular expression `(\d+)\s*lane`. The scanner is proved to return the leftmost regex match.
- `StructuredNormalizer`: `create_structured_report`.
- `LocationReport`: `create_smart_fallback_report`.
- `AiClassifier`: the guards, validation, enum repair, metadata stamping and error remapping of `IncidentReporter.generate_report` and `generate_enhanced_report`.
- `ReportPipeline`: the route selection and AI-to-keyword fallback of `report_incident`, with the HTTP response as a datatype.

The model keeps the source's shape:

- Each loop in the source is a method with a loop. Each method's `ensures` ties its result to a declarative function, e.g. `ExtractRoadInfo` returns `RoadInfoOf(components)`.
- The lemmas then state the source's guarantees about those functions.
- Reports are `map<string, JsonValue>`.
- Three inputs come in as parameters:
  - The language-model call and `json.loads` are one oracle, `ModelOutcome`. It is one of: call failed, empty content, undecodable text, or a parsed object.
  - The clock is a timestamp string.
  - The geocoding result is the sequence of its address components.

## Model

| member | source | states |
|---|---|---|
| Json.Falsy | backend/Incidentreporter/app.py:253 | Python's `not v` on a decoded JSON value: true exactly for null, false, 0, the empty string, the empty list and the empty object |
| Vocabulary.IsIncidentType | backend/Incidentreporter/llm_reporter.py:96-99 | `v in valid_types`: the value is a string and one of the eight incident types (also llm_reporter.py:214-216) |
| Vocabulary.IsSeverity | backend/Incidentreporter/llm_reporter.py:102-104 | `v in valid_severities`: the value is a string and one of low, medium, high (also llm_reporter.py:219-221) |
| Text.IsSpace | backend/Incidentreporter/app.py:210 | the characters `str.strip` removes and `\s` matches: the ASCII whitespace set of `str.isspace` |
| Text.AllSpace | backend/Incidentreporter/llm_reporter.py:35 | `not s.strip()`: every character is whitespace (also app.py:210-212) |
| Text.Strip | backend/Incidentreporter/app.py:210 | `message.strip()`: the result is the slice of the input left after removing only leading and trailing whitespace, and neither of its ends is whitespace |
| Text.StripEmptyIffBlank | backend/Incidentreporter/app.py:210-216 | a message strips to empty exactly when every character is whitespace |
| Text.StripIdempotent | backend/Incidentreporter/app.py:210 | stripping a stripped message changes nothing |
| Text.Lower | backend/Incidentreporter/app.py:285 | `message.lower()` keeps the length and lower-cases each ASCII letter |
| Text.DigitsValue | backend/Incidentreporter/app.py:322 | `int(lanes_match.group(1))` on a run of decimal digits: the most significant digit first, each step multiplying by ten |
| Text.Contains | backend/Incidentreporter/app.py:316 | Python's `w in s` on strings: `w` occurs at some position of `s` |
| Text.ContainsAny | backend/Incidentreporter/app.py:289-307 | `any(w in s for w in words)`: some word of the list occurs in `s` (also the road-name tests at app.py:148-153) |
| Text.FirstWhere | backend/Incidentreporter/app.py:315-318 | the first-match scan: the index satisfies the test, none before it does, and None means none does |
| Text.FirstWhereUnique | backend/Incidentreporter/app.py:315-318 | the first index satisfying the test is the one the scan returns |
| RoadInfoExtractor.IsRoute | backend/Incidentreporter/app.py:147 | `'route' in types` for one address component |
| RoadInfoExtractor.IsIntersection | backend/Incidentreporter/app.py:163 | `'intersection' in types` for one address component |
| RoadInfoExtractor.ClassifyRoute | backend/Incidentreporter/app.py:148-160 | the class a route name gives: highway if it has a highway keyword, else arterial if it has an arterial keyword, else street |
| RoadInfoExtractor.LanesOf | backend/Incidentreporter/app.py:148-160 | the typical lane count each road class is given: 4, 3, 2, and None for unknown |
| RoadInfoExtractor.SpeedOf | backend/Incidentreporter/app.py:148-160 | the speed estimate each road class is given: 70, 45, 35 mph, and None for unknown |
| RoadInfoExtractor.RouteClass | backend/Incidentreporter/app.py:145-160 | a route component's class from its lower-cased `long_name`, and unknown for any other component |
| RoadInfoExtractor.RoadInfoOf | backend/Incidentreporter/app.py:131-166 | the declarative road information: class, lanes and speed from the last route component (unknown/None/None without one), `is_highway` if any route component is a highway, `is_intersection` if any component is an intersection |
| RoadInfoExtractor.LastRoute | backend/Incidentreporter/app.py:142-160 | the index of the last component typed "route": it is a route, no later component is, and None means there is none |
| RoadInfoExtractor.ExtractRoadInfo | backend/Incidentreporter/app.py:131-166 | the loop returns the declarative road information: class and estimates from the last route, flags raised by any component |
| RoadInfoExtractor.RoadInfoOfSnoc | backend/Incidentreporter/app.py:142-164 | one more component: a route replaces class, lanes and speed; flags are OR-ed with the component's own |
| RoadInfoExtractor.FlagsSticky | backend/Incidentreporter/app.py:147-164 | appending components never resets `is_highway` or `is_intersection` once set |
| RoadInfoExtractor.HighwayBeforeArterial | backend/Incidentreporter/app.py:148-156 | a route name with a highway keyword is a highway with 4 lanes and 70 mph, even if it also has an arterial keyword |
| RoadInfoExtractor.LastRouteWins | backend/Incidentreporter/app.py:146-160 | the last route component decides the road class, whatever routes came before |
| RoadInfoExtractor.NoRouteDefaults | backend/Incidentreporter/app.py:133-139 | without a route the class is unknown, lanes and speed are None and `is_highway` is false |
| KeywordClassifier.DetectType | backend/Incidentreporter/app.py:287-300 | the incident-type `if`/`elif` chain over the lower-cased message, "other" when no group occurs |
| KeywordClassifier.DetectSeverity | backend/Incidentreporter/app.py:302-307 | the severity chain: high keywords first, then low keywords, else "medium" |
| KeywordClassifier.DetectDirection | backend/Incidentreporter/app.py:312-318 | the direction: the first of the eight patterns, in order, that occurs |
| KeywordClassifier.DetectLanes | backend/Incidentreporter/app.py:320-322 | `re.search(r'(\d+)\s*lane', …)` with `int(group(1))`: the scanner from the start of the message |
| KeywordClassifier.BasicReportOf | backend/Incidentreporter/app.py:324-336 | the eleven-key dictionary `create_basic_report` returns, given the four detections, the message and the timestamp |
| KeywordClassifier.BasicReport | backend/Incidentreporter/app.py:279-336 | the declarative keyword report of a message: its four detections and the fixed fields |
| KeywordClassifier.DigitRunEnd | backend/Incidentreporter/app.py:321 | the end of the greedy `\d+` run starting at a position: every character before it is a digit and the one at it is not |
| KeywordClassifier.SpaceRunEnd | backend/Incidentreporter/app.py:321 | the end of the greedy `\s*` run starting at a position: every character before it is whitespace and the one at it is not |
| KeywordClassifier.RegexMatch | backend/Incidentreporter/app.py:321 | `(\d+)\s*lane` matches at a position with group 1 and `\s*` spanning the given ranges |
| KeywordClassifier.LaneMatchAt | backend/Incidentreporter/app.py:321 | the pattern matches at a position taking the whole digit run and the whole whitespace run |
| KeywordClassifier.LaneCountAt | backend/Incidentreporter/app.py:322 | `int(lanes_match.group(1))` for a match at a position: the value of its whole digit run |
| KeywordClassifier.Detect | backend/Incidentreporter/app.py:285-322 | the four detections of `create_basic_report`, all on the lower-cased message: type, severity, direction and lane count |
| KeywordClassifier.DetectTypeIsFirstMatchingRule | backend/Incidentreporter/app.py:288-300 | the type is the one of the first keyword group, in the fixed order, that occurs in the message, else "other" |
| KeywordClassifier.DetectTypeInVocabulary | backend/Incidentreporter/app.py:288-300 | the detected type is one of the eight and never weather_hazard |
| KeywordClassifier.DetectSeverityInVocabulary | backend/Incidentreporter/app.py:303-307 | the detected severity is low, medium or high |
| KeywordClassifier.HighSeverityWins | backend/Incidentreporter/app.py:303-307 | a message with both "major" and "minor" is high severity, because the high keywords are tried first |
| KeywordClassifier.DetectDirectionIsFirstPattern | backend/Incidentreporter/app.py:313-318 | the direction is the first pattern in the ordered list that occurs (so "eastbound" before "east"), and None exactly when none occurs |
| KeywordClassifier.ScanLanes | backend/Incidentreporter/app.py:321-322 | None exactly when the pattern matches nowhere; otherwise the value of the digit run at the leftmost match |
| KeywordClassifier.RegexMatchIsGreedy | backend/Incidentreporter/app.py:321 | every match of `(\d+)\s*lane` at a position uses the whole digit run and the whole whitespace run, so the scanner's reading is the regex's |
| KeywordClassifier.LaneMatchIsRegexMatch | backend/Incidentreporter/app.py:321 | the scanner's match is a match of the regular expression |
| KeywordClassifier.BasicReportKeys | backend/Incidentreporter/app.py:324-336 | a basic report has exactly the eleven keys |
| KeywordClassifier.BasicReportShape | backend/Incidentreporter/app.py:324-336 | location and original input are the message verbatim; the description quotes it; delay and time are null; the method tag is fixed; type, severity, direction and lanes are the detections |
| KeywordClassifier.BasicReportEnumsValid | backend/Incidentreporter/app.py:287-307 | a basic report's type and severity are always in the vocabulary |
| KeywordClassifier.CreateBasicReport | backend/Incidentreporter/app.py:279-336 | the `for … break` direction loop and the keyword chains build the declarative basic report |
| StructuredNormalizer.MissingIn | backend/Incidentreporter/app.py:253 | `not data.get(field)`: the field is absent or its value is falsy |
| StructuredNormalizer.IsBlank | backend/Incidentreporter/app.py:273 | `value == '' or value is None` |
| StructuredNormalizer.Cleared | backend/Incidentreporter/app.py:273-275 | an optional field after cleanup: null when blank, its value otherwise |
| StructuredNormalizer.RawReport | backend/Incidentreporter/app.py:257-269 | the dictionary as first built: required and optional fields copied with `.get`, description defaulting to '', and the metadata |
| StructuredNormalizer.StructuredFields | backend/Incidentreporter/app.py:257-275 | the dictionary after cleanup: each optional field is null when its input is '', None or absent |
| StructuredNormalizer.StructuredReport | backend/Incidentreporter/app.py:246-277 | the declarative form result: a ValueError naming the first falsy required field, else the normalised dictionary |
| StructuredNormalizer.StructuredRejectsFirstMissing | backend/Incidentreporter/app.py:251-254 | the ValueError names the first falsy field in the order incident_type, location, severity |
| StructuredNormalizer.StructuredSucceedsIffRequiredPresent | backend/Incidentreporter/app.py:251-254 | a report is produced exactly when all three required fields are truthy; the only error is a ValueError |
| StructuredNormalizer.StructuredKeysFixed | backend/Incidentreporter/app.py:257-269 | the report has the fixed eleven keys |
| StructuredNormalizer.StructuredCopiesVerbatim | backend/Incidentreporter/app.py:258-261 | required fields are copied without enum repair; description defaults to '' |
| StructuredNormalizer.StructuredClearsBlankOptionals | backend/Incidentreporter/app.py:262-275 | each of the four optional fields is its input unless that is '', None or absent, when it is null |
| StructuredNormalizer.StructuredMetadata | backend/Incidentreporter/app.py:266-268 | original input is the whole request, plus timestamp and method tag |
| StructuredNormalizer.CleanupGivesStructuredFields | backend/Incidentreporter/app.py:256-275 | nulling the blank optional values of the first dictionary yields the report |
| StructuredNormalizer.ClearBlankOptionals | backend/Incidentreporter/app.py:272-275 | the loop over the items nulls exactly the blank optional fields and keeps every key |
| StructuredNormalizer.CreateStructuredReport | backend/Incidentreporter/app.py:246-277 | the validation loop and the cleanup loop compute the declarative structured result |
| LocationReport.LocationOf | backend/Incidentreporter/app.py:173 | `address or "Current location"`: a non-empty address is used, otherwise the placeholder |
| LocationReport.SmartFallbackKeys | backend/Incidentreporter/app.py:176-185 | the location report has exactly eight keys and no severity |
| LocationReport.SmartFallbackDescribesLocation | backend/Incidentreporter/app.py:173-179 | the description is exactly "Incident reported: {type} at {location}" |
| LocationReport.SmartFallbackPassesThrough | backend/Incidentreporter/app.py:180-184 | coordinates and road information pass through; status "reported"; method "location_based_reporting" |
| LocationReport.SmartFallbackReport | backend/Incidentreporter/app.py:168-185 | the eight-key location report, with `reported_at` as the timestamp parameter |
| LocationReport.SmartFallbackDescriptionFromFields | backend/Incidentreporter/app.py:173-179 | the description is built from the report's own incident type and location fields |
| LocationReport.SmartFallbackDeterminesInputs | backend/Incidentreporter/app.py:168-185 | two location reports are equal exactly when their type, coordinates, road information, resolved location and timestamp agree |
| AiClassifier.RepairType | backend/Incidentreporter/llm_reporter.py:97-100 | an `incident_type` outside the eight values is replaced by the fallback ("other" on the plain path, the caller's type at llm_reporter.py:216-217) |
| AiClassifier.RepairSeverity | backend/Incidentreporter/llm_reporter.py:103-105 | a `severity` outside low, medium and high is replaced by "medium" |
| AiClassifier.FirstAbsent | backend/Incidentreporter/llm_reporter.py:91-94 | the first of the four required fields, in order, that is not a key of the parsed reply |
| AiClassifier.Validated | backend/Incidentreporter/llm_reporter.py:67-105 | the shared `try` body (also llm_reporter.py:184-222): call failure, empty content, undecodable reply, first missing field, else the repaired object |
| AiClassifier.Remap | backend/Incidentreporter/llm_reporter.py:113-119 | the two `except` clauses (also llm_reporter.py:232-238): a decode error gets the parse message, every other failure the generic one |
| AiClassifier.Stamped | backend/Incidentreporter/llm_reporter.py:107-109 | the plain path's metadata: `processed_at` and `original_input` |
| AiClassifier.EnhancedStamped | backend/Incidentreporter/llm_reporter.py:224-228 | the enhanced path's metadata: `processed_at`, `coordinates`, `road_info` and the method tag |
| AiClassifier.Repaired | backend/Incidentreporter/llm_reporter.py:97-105 | the parsed object with `incident_type` and `severity` repaired in place |
| AiClassifier.PlainReport | backend/Incidentreporter/llm_reporter.py:35-119 | the declarative `generate_report`: the blank-input guard, validation and repair with fallback "other", the two stamps, and the remapped failures |
| AiClassifier.EnhancedReport | backend/Incidentreporter/llm_reporter.py:133-238 | the declarative `generate_enhanced_report`: the empty-type guard, validation and repair with the caller's type, the four stamps, and the remapped failures |
| AiClassifier.RepairTypeSpec | backend/Incidentreporter/llm_reporter.py:97-100 | a valid type is kept, an invalid one becomes the fallback; repairing twice changes nothing |
| AiClassifier.RepairSeveritySpec | backend/Incidentreporter/llm_reporter.py:103-105 | a repaired severity is always valid, unchanged when valid, "medium" otherwise |
| AiClassifier.FirstAbsentSpec | backend/Incidentreporter/llm_reporter.py:91-94 | the missing field reported is the first of incident_type, location, severity, description that is not a key |
| AiClassifier.ValidatedSpec | backend/Incidentreporter/llm_reporter.py:67-105 | validation succeeds exactly on a parsed object with all four keys; it changes only the two enum fields |
| AiClassifier.RepairedSpec | backend/Incidentreporter/llm_reporter.py:97-105 | repair changes only incident_type and severity, and keeps the key set |
| AiClassifier.RepairedFixesValid | backend/Incidentreporter/llm_reporter.py:97-105 | repairing an object whose two enum fields are valid leaves it unchanged |
| AiClassifier.StampedTwice | backend/Incidentreporter/llm_reporter.py:107-109 | stamping twice with the same input and clock is stamping once |
| AiClassifier.PlainOk | backend/Incidentreporter/llm_reporter.py:86-111 | a successful plain report comes from a parsed object with all four required keys, repaired with fallback "other" and stamped |
| AiClassifier.EnhancedOk | backend/Incidentreporter/llm_reporter.py:203-230 | a successful enhanced report comes from a parsed object with all four required keys, repaired with the caller's type and stamped |
| AiClassifier.EnhancedStampedSpec | backend/Incidentreporter/llm_reporter.py:224-228 | enhanced stamping sets the four metadata keys and touches no other key |
| AiClassifier.PlainRejectsBlankInput | backend/Incidentreporter/llm_reporter.py:35-36 | input that strips to empty is a ValueError whatever the model would answer |
| AiClassifier.PlainFailuresAreOpaque | backend/Incidentreporter/llm_reporter.py:113-119 | after the guard every failure is a generic exception; a decode error gets the "parse" message, all others the "classify" message |
| AiClassifier.PlainRepairsEnums | backend/Incidentreporter/llm_reporter.py:97-105 | the type is kept when valid, else "other"; the severity is kept when valid, else "medium" |
| AiClassifier.PlainEnumsValid | backend/Incidentreporter/llm_reporter.py:97-105 | a successful plain report has both enum fields, in the vocabulary |
| AiClassifier.PlainKeepsOtherFields | backend/Incidentreporter/llm_reporter.py:99-111 | other keys and values are unchanged; processed_at and original_input are added |
| AiClassifier.PlainIdempotent | backend/Incidentreporter/llm_reporter.py:97-111 | validating a produced report again, with the same input and clock, gives it back unchanged |
| AiClassifier.EnhancedRejectsEmptyType | backend/Incidentreporter/llm_reporter.py:133-134 | an empty incident type is a ValueError whatever the model would answer |
| AiClassifier.EnhancedFailuresAreOpaque | backend/Incidentreporter/llm_reporter.py:232-238 | after the guard every failure is one of the two generic enhanced-analysis exceptions |
| AiClassifier.EnhancedRepairsEnums | backend/Incidentreporter/llm_reporter.py:214-222 | an invalid type becomes the caller's type; it is in the vocabulary only when the caller's is; severity as on the plain path |
| AiClassifier.EnhancedTypeCanLeaveVocabulary | backend/Incidentreporter/llm_reporter.py:216-217 | an invalid model type together with an invalid caller type gives a report typed outside the vocabulary |
| AiClassifier.EnhancedKeepsOtherFields | backend/Incidentreporter/llm_reporter.py:216-230 | other keys are unchanged; timestamp, coordinates, road information and the method tag are added |
| AiClassifier.FirstMissingField | backend/Incidentreporter/llm_reporter.py:91-94 | the required-field loop stops at the first absent key |
| AiClassifier.ValidateAndRepair | backend/Incidentreporter/llm_reporter.py:67-105 | the shared `try` body computes the declarative validation result |
| AiClassifier.GenerateReport | backend/Incidentreporter/llm_reporter.py:35-119 | `generate_report` computes the declarative plain report |
| AiClassifier.GenerateEnhancedReport | backend/Incidentreporter/llm_reporter.py:133-238 | `generate_enhanced_report` computes the declarative enhanced report |
| ReportPipeline.Status | backend/Incidentreporter/app.py:198-244 | the HTTP status of each response kind: 200 for a report, 400 for a client error, 500 for the server error |
| ReportPipeline.IsStructured | backend/Incidentreporter/app.py:205 | `'incident_type' in data and 'location' in data`: key presence alone selects the form path |
| ReportPipeline.FormResponse | backend/Incidentreporter/app.py:226-237 | the form path's answer: 200 with the report and the request, a ValueError as 400 "Invalid input: " and its message, anything else the generic 500 |
| ReportPipeline.FreeTextReport | backend/Incidentreporter/app.py:218-224 | the free-text report: the model's report when `generate_report` succeeds, the keyword report when it raises anything |
| ReportPipeline.Respond | backend/Incidentreporter/app.py:196-244 | the declarative endpoint: empty body, form path, blank or non-string message, free-text path, and the two `except` clauses |
| ReportPipeline.EmptyBodyRejected | backend/Incidentreporter/app.py:198-202 | an empty request body is a 400 "No JSON data provided" |
| ReportPipeline.FormPathIgnoresModel | backend/Incidentreporter/app.py:205-207 | with both keys present the answer is the form report's, whatever the model would say |
| ReportPipeline.FormAccepted | backend/Incidentreporter/app.py:205-230 | a form with the three required fields truthy is answered 200 with the normalised report |
| ReportPipeline.FormRejected | backend/Incidentreporter/app.py:232-237 | otherwise the answer is 400 "Invalid input: Missing required field: " and the first missing field |
| ReportPipeline.MessageErrors | backend/Incidentreporter/app.py:208-244 | a missing or blank message is a 400; a message that is not a string is the generic 500 |
| ReportPipeline.FreeTextAlwaysReported | backend/Incidentreporter/app.py:208-230 | a non-blank message is always answered 200 with the free-text report of the stripped message |
| ReportPipeline.ModelSuccessUsed | backend/Incidentreporter/app.py:219-221 | a successful model report is returned as it is |
| ReportPipeline.ModelFailureFallsBack | backend/Incidentreporter/app.py:222-224 | any model failure gives the keyword report of the same message |
| ReportPipeline.FreeTextEnumsValid | backend/Incidentreporter/app.py:218-224 | whichever way it was produced, a free-text report's type and severity are in the vocabulary |
| ReportPipeline.ReportIncident | backend/Incidentreporter/app.py:187-244 | the endpoint computes the declarative response |

## Left out

- Flask plumbing: routes, `jsonify` and `render_template`. The status codes are kept only as the three response kinds (200, 400, 500).
- The routes `/`, `/quick` and `/health`, `app.run`, and the secret key. These are request plumbing.
- `/geocode`: `requests.get`, `raise_for_status` and the response status checks are network I/O. Only `extract_road_info` over the decoded components is modelled.
- `/smart-report` is request plumbing around `create_smart_fallback_report`, which is modelled. The route's own `not incident_type` 400 guard, its `{}` defaults for missing `coordinates` and `road_info`, and its `except` that answers 500 are not modelled.
- `IncidentReporter.__init__`, the OpenAI client, the chat-completion call, the prompt text and `json.loads`:
  - they are the `ModelOutcome` oracle;
  - a decoded reply that is a JSON array, string or number is not modelled (the call asks for a JSON object);
  - building the prompts before the `try` is assumed not to fail. The coordinates and road information are the dicts the signature declares, so `road_info.get` always succeeds. A `lat` or `lng` that is not a number cannot be formatted with `:.4f` and raises before the `try`; that exception is not remapped, and the model does not capture it. Otherwise the formatting is floating point and only feeds the prompt.
- `datetime.utcnow().isoformat()`: the clock is a timestamp parameter. One value stands for every clock read on a path.
- Floating-point JSON numbers: numbers are integers.
- KeywordClassifier.ScanLanes: a digit run of any length is read as a number. CPython's `int()` refuses a string of more than 4300 digits by default and raises ValueError. On such a message, when the model call also fails, the source answers 400 "Invalid input: …" instead of a report, so ReportPipeline.FreeTextAlwaysReported does not hold for such a message. The limit is an interpreter setting, not part of the service.
- Unicode handling in these operations is ASCII only: `str.lower`, `str.strip`, and the regex classes `\d` and `\s`. Whitespace is the ASCII set `str.isspace` accepts.
- `report_incident` on a request body that is not a JSON object, or that is missing: the body is always a decoded object, and its emptiness is the `not data` test.
- Logging calls everywhere.
- RoadInfoExtractor.ExtractRoadInfo: components are typed records. The `.get` defaults for a missing `address_components`, `types` or `long_name` are not modelled. Each becomes an empty list or string.
- LocationReport.SmartFallbackReport: `incident_type` is a string and `address` an optional string. How the f-string renders other types is not modelled.
- The module-level construction of `IncidentReporter()` at import time, which fails without an API key, is not modelled.
- AiClassifier.GenerateEnhancedReport has no caller in the service (`/smart-report` builds the location report instead). Only its checks and repairs are modelled.

The prompt asks the model for one of the eight incident types (backend/Incidentreporter/llm_reporter.py:43), and the plain path enforces it by replacing any other answer with "other" (llm_reporter.py:97-100, `AiClassifier.PlainEnumsValid`). The enhanced path does not: it replaces an invalid answer with the caller's type, unchecked (llm_reporter.py:214-217). The model follows the code (`AiClassifier.EnhancedTypeCanLeaveVocabulary`).
