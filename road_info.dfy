/** Coarse road attributes derived from a reverse-geocoding result (`extract_road_info`). */
module RoadInfoExtractor {
  import opened Json
  import opened Text

  /** One entry of a geocoding result's `address_components`: its `long_name` and `types`. */
  datatype AddressComponent = AddressComponent(longName: string, types: seq<string>)

  datatype RoadType = Unknown | Highway | Arterial | Street

  /** The `road_info` dictionary. Lane count and speed estimate are None until a route is seen. */
  datatype RoadInfo = RoadInfo(
    roadType: RoadType,
    speedLimitEstimate: Option<nat>,
    typicalLanes: Option<nat>,
    isHighway: bool,
    isIntersection: bool)

  const HighwayWords: seq<string> := ["interstate", "highway", "freeway", "i-"]
  const ArterialWords: seq<string> := ["boulevard", "avenue", "blvd", "ave"]

  /** The dictionary before any component has been looked at. */
  const Initial := RoadInfo(Unknown, None, None, false, false)

  predicate IsRoute(c: AddressComponent) {
    "route" in c.types
  }

  predicate IsIntersection(c: AddressComponent) {
    "intersection" in c.types
  }

  /** The class of a route, from its lower-cased name; highway keywords are tried first. */
  function ClassifyRoute(name: string): RoadType {
    if ContainsAny(name, HighwayWords) then Highway
    else if ContainsAny(name, ArterialWords) then Arterial
    else Street
  }

  /** The lane count each road class is given. */
  function LanesOf(t: RoadType): Option<nat> {
    match t
    case Unknown => None
    case Highway => Some(4)
    case Arterial => Some(3)
    case Street => Some(2)
  }

  /** The speed estimate (mph) each road class is given. */
  function SpeedOf(t: RoadType): Option<nat> {
    match t
    case Unknown => None
    case Highway => Some(70)
    case Arterial => Some(45)
    case Street => Some(35)
  }

  /** The class of component `c` if it is a route. */
  function RouteClass(c: AddressComponent): RoadType {
    if IsRoute(c) then ClassifyRoute(Lower(c.longName)) else Unknown
  }

  /** The index of the last route component, if any. */
  function LastRoute(cs: seq<AddressComponent>): (r: Option<nat>)
    ensures r.Some? ==> r.value < |cs| && IsRoute(cs[r.value])
    ensures r.Some? ==> forall j :: r.value < j < |cs| ==> !IsRoute(cs[j])
    ensures r.None? <==> forall j :: 0 <= j < |cs| ==> !IsRoute(cs[j])
    decreases |cs|
  {
    if |cs| == 0 then None
    else if IsRoute(cs[|cs| - 1]) then Some(|cs| - 1)
    else LastRoute(cs[..|cs| - 1])
  }

  /** What `extract_road_info` returns, stated without the loop: the road class and its
      estimates come from the last route component; each flag says whether some component
      ever raised it. */
  function RoadInfoOf(cs: seq<AddressComponent>): RoadInfo {
    var t := match LastRoute(cs) case None => Unknown case Some(i) => RouteClass(cs[i]);
    RoadInfo(
      roadType := t,
      speedLimitEstimate := SpeedOf(t),
      typicalLanes := LanesOf(t),
      isHighway := exists i | 0 <= i < |cs| :: RouteClass(cs[i]) == Highway,
      isIntersection := exists i | 0 <= i < |cs| :: IsIntersection(cs[i]))
  }

  /** One more component: a route overrides the class and estimates, a non-route keeps
      them; the flags only ever go from false to true. */
  lemma {:induction false} RoadInfoOfSnoc(cs: seq<AddressComponent>, c: AddressComponent)
    ensures var before, after := RoadInfoOf(cs), RoadInfoOf(cs + [c]);
      && after.roadType == (if IsRoute(c) then RouteClass(c) else before.roadType)
      && after.typicalLanes == LanesOf(after.roadType)
      && after.speedLimitEstimate == SpeedOf(after.roadType)
      && after.isHighway == (before.isHighway || RouteClass(c) == Highway)
      && after.isIntersection == (before.isIntersection || IsIntersection(c))
  {
    var cs' := cs + [c];
    assert cs'[..|cs'| - 1] == cs;
    assert forall i :: 0 <= i < |cs| ==> cs'[i] == cs[i];
    assert cs'[|cs|] == c;
    if RoadInfoOf(cs).isHighway {
      var i :| 0 <= i < |cs| && RouteClass(cs[i]) == Highway;
      assert RouteClass(cs'[i]) == Highway;
    }
    if RoadInfoOf(cs).isIntersection {
      var i :| 0 <= i < |cs| && IsIntersection(cs[i]);
      assert IsIntersection(cs'[i]);
    }
  }

  /** Appending components never clears a flag that is already set. */
  lemma {:induction false} FlagsSticky(cs: seq<AddressComponent>, more: seq<AddressComponent>)
    ensures RoadInfoOf(cs).isHighway ==> RoadInfoOf(cs + more).isHighway
    ensures RoadInfoOf(cs).isIntersection ==> RoadInfoOf(cs + more).isIntersection
    decreases |more|
  {
    if |more| == 0 {
      assert cs + more == cs;
    } else {
      var init := more[..|more| - 1];
      FlagsSticky(cs, init);
      assert cs + more == (cs + init) + [more[|more| - 1]];
      RoadInfoOfSnoc(cs + init, more[|more| - 1]);
    }
  }

  /** A route name with a highway keyword is a highway even if it also names an avenue. */
  lemma HighwayBeforeArterial(name: string)
    requires ContainsAny(name, HighwayWords)
    ensures ClassifyRoute(name) == Highway
    ensures LanesOf(ClassifyRoute(name)) == Some(4) && SpeedOf(ClassifyRoute(name)) == Some(70)
  {
  }

  /** The last route component decides the class, whatever routes came before it. */
  lemma LastRouteWins(cs: seq<AddressComponent>, c: AddressComponent, rest: seq<AddressComponent>)
    requires IsRoute(c)
    requires forall j :: 0 <= j < |rest| ==> !IsRoute(rest[j])
    ensures RoadInfoOf(cs + [c] + rest).roadType == ClassifyRoute(Lower(c.longName))
  {
    var all := cs + [c] + rest;
    assert all[|cs|] == c;
    assert forall j :: |cs| < j < |all| ==> all[j] == rest[j - |cs| - 1];
    var last := LastRoute(all);
    assert last == Some(|cs|);
  }

  /** Without any route component the class stays unknown and the estimates stay None. */
  lemma NoRouteDefaults(cs: seq<AddressComponent>)
    requires forall j :: 0 <= j < |cs| ==> !IsRoute(cs[j])
    ensures RoadInfoOf(cs).roadType == Unknown
    ensures RoadInfoOf(cs).typicalLanes == None && RoadInfoOf(cs).speedLimitEstimate == None
    ensures !RoadInfoOf(cs).isHighway
  {
  }

  /** `extract_road_info`: one pass over the components, updating the dictionary in place. */
  method ExtractRoadInfo(components: seq<AddressComponent>) returns (info: RoadInfo)
    ensures info == RoadInfoOf(components)
  {
    info := Initial;
    var n := 0;
    while n < |components|
      invariant 0 <= n <= |components|
      invariant info == RoadInfoOf(components[..n])
    {
      var c := components[n];
      var name := Lower(c.longName);
      if IsRoute(c) {
        if ContainsAny(name, HighwayWords) {
          info := info.(roadType := Highway, isHighway := true, typicalLanes := Some(4), speedLimitEstimate := Some(70));
        } else if ContainsAny(name, ArterialWords) {
          info := info.(roadType := Arterial, typicalLanes := Some(3), speedLimitEstimate := Some(45));
        } else {
          info := info.(roadType := Street, typicalLanes := Some(2), speedLimitEstimate := Some(35));
        }
      }
      if IsIntersection(c) {
        info := info.(isIntersection := true);
      }
      RoadInfoOfSnoc(components[..n], c);
      assert components[..n + 1] == components[..n] + [c];
      n := n + 1;
    }
    assert components[..n] == components;
  }
}
