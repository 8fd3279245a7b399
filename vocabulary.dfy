/** The closed vocabularies of the canonical incident report. */
module Vocabulary {
  import opened Json

  /** The eight incident types. */
  const IncidentTypes: seq<string> :=
    ["accident", "speed_trap", "road_closure", "construction", "weather_hazard", "debris", "stalled_vehicle", "other"]

  /** The three severities. */
  const Severities: seq<string> := ["low", "medium", "high"]

  predicate IsIncidentType(v: JsonValue) {
    v.JStr? && v.s in IncidentTypes
  }

  predicate IsSeverity(v: JsonValue) {
    v.JStr? && v.s in Severities
  }
}
