/** The location-based report (`create_smart_fallback_report`): a fixed-shape dictionary
    built from an incident type, the coordinates, the road information and an optional address. */
module LocationReport {
  import opened Json

  const LocationKeys: set<string> := {
    "incident_type", "location", "description", "reported_at", "coordinates", "road_info",
    "processing_method", "status"}

  /** The placeholder used when no address is known. */
  const DefaultLocation: string := "Current location"

  /** `address or "Current location"`: None and '' both fall back to the placeholder. */
  function LocationOf(address: Option<string>): (loc: string)
    ensures address.Some? && address.value != "" ==> loc == address.value
    ensures address.None? || address.value == "" ==> loc == DefaultLocation
    ensures loc != ""
  {
    match address
    case Some(a) => if a != "" then a else DefaultLocation
    case None => DefaultLocation
  }

  /** `create_smart_fallback_report(incident_type, coordinates, road_info, address)` with
      `reported_at` given as `timestamp`. */
  function SmartFallbackReport(incidentType: string, coordinates: JsonValue, roadInfo: JsonValue,
                               address: Option<string>, timestamp: string): Object
  {
    var location := LocationOf(address);
    map[
      "incident_type" := JStr(incidentType),
      "location" := JStr(location),
      "description" := JStr("Incident reported: " + incidentType + " at " + location),
      "reported_at" := JStr(timestamp),
      "coordinates" := coordinates,
      "road_info" := roadInfo,
      "processing_method" := JStr("location_based_reporting"),
      "status" := JStr("reported")]
  }

  /** The report has exactly the eight keys, so no severity, direction or lane field. */
  lemma SmartFallbackKeys(incidentType: string, coordinates: JsonValue, roadInfo: JsonValue,
                          address: Option<string>, timestamp: string)
    ensures SmartFallbackReport(incidentType, coordinates, roadInfo, address, timestamp).Keys == LocationKeys
    ensures "severity" !in SmartFallbackReport(incidentType, coordinates, roadInfo, address, timestamp)
  {
  }

  /** The location is the address when it is non-empty and the placeholder otherwise, and the
      description names both the type and that location. */
  lemma SmartFallbackDescribesLocation(incidentType: string, coordinates: JsonValue, roadInfo: JsonValue,
                                       address: Option<string>, timestamp: string)
    ensures var r := SmartFallbackReport(incidentType, coordinates, roadInfo, address, timestamp);
      var loc := if address.Some? && address.value != "" then address.value else DefaultLocation;
      && r["location"] == JStr(loc)
      && r["description"] == JStr("Incident reported: " + incidentType + " at " + loc)
      && r["incident_type"] == JStr(incidentType)
  {
  }

  /** Coordinates and road information pass through untouched; status and method are fixed. */
  lemma SmartFallbackPassesThrough(incidentType: string, coordinates: JsonValue, roadInfo: JsonValue,
                                   address: Option<string>, timestamp: string)
    ensures var r := SmartFallbackReport(incidentType, coordinates, roadInfo, address, timestamp);
      && r["coordinates"] == coordinates && r["road_info"] == roadInfo
      && r["status"] == JStr("reported")
      && r["processing_method"] == JStr("location_based_reporting")
      && r["reported_at"] == JStr(timestamp)
  {
  }

  /** The description is consistent with the report's own fields: it names the report's
      incident type and location. */
  lemma SmartFallbackDescriptionFromFields(incidentType: string, coordinates: JsonValue, roadInfo: JsonValue,
                                           address: Option<string>, timestamp: string)
    ensures var r := SmartFallbackReport(incidentType, coordinates, roadInfo, address, timestamp);
      && r["incident_type"].JStr? && r["location"].JStr?
      && r["description"] == JStr("Incident reported: " + r["incident_type"].s + " at " + r["location"].s)
  {
  }

  /** The report loses nothing but the difference between no address, an empty address and
      the placeholder itself: two reports are equal exactly when their inputs agree up to
      the location they resolve to. */
  lemma SmartFallbackDeterminesInputs(t1: string, c1: JsonValue, r1: JsonValue, a1: Option<string>, ts1: string,
                                      t2: string, c2: JsonValue, r2: JsonValue, a2: Option<string>, ts2: string)
    ensures SmartFallbackReport(t1, c1, r1, a1, ts1) == SmartFallbackReport(t2, c2, r2, a2, ts2) <==>
      t1 == t2 && c1 == c2 && r1 == r2 && LocationOf(a1) == LocationOf(a2) && ts1 == ts2
  {
    var x, y := SmartFallbackReport(t1, c1, r1, a1, ts1), SmartFallbackReport(t2, c2, r2, a2, ts2);
    if x == y {
      assert x["incident_type"] == y["incident_type"];
      assert x["location"] == y["location"];
      assert x["coordinates"] == y["coordinates"] && x["road_info"] == y["road_info"];
      assert x["reported_at"] == y["reported_at"];
    }
  }
}
