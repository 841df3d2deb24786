/** Descriptive trip information shown in the route modal (ROUTE_INFO and its fallback). */
module RouteDetails {
  import opened Wrappers
  import opened Routes

  /** Display-only facts about a route; the intermediate stops are free text, not catalog stops. */
  datatype RouteMetadata = RouteMetadata(
    temperature: string,
    intermediateStops: seq<string>,
    notes: string,
    duration: string)

  /** ROUTE_INFO: entries for the three seed route names. */
  const RouteInfo: map<string, RouteMetadata> := map[
    "Home to Campus" := RouteMetadata(
      "68\U{00B0}F \U{2013} clear skies",
      ["Mid-City Transit Hub", "University Ave x Park Blvd"],
      "Typical weekday morning pattern.",
      "Approx. 18 minutes"),
    "Campus to UTC" := RouteMetadata(
      "70\U{00B0}F \U{2013} mild",
      ["El Cajon Blvd x College Ave", "Pearl St x La Jolla Blvd"],
      "Popular afternoon shuttle.",
      "Approx. 22 minutes"),
    "Downtown Shuttle" := RouteMetadata(
      "72\U{00B0}F \U{2013} breezy",
      ["5th Ave x Market St"],
      "Runs every 15 minutes at peak.",
      "Approx. 25 minutes")
  ]

  /** The sample information given to any route whose name has no entry. */
  const FallbackInfo: RouteMetadata := RouteMetadata(
    "70\U{00B0}F \U{2013} sample data",
    ["Sample midpoint stop"],
    "Prototype route information (not real-time).",
    "Approx. 20 minutes")

  /** ROUTE_INFO[name] as an explicit lookup: present only for the three seed names. */
  function LookupRouteInfo(name: string): (found: Option<RouteMetadata>)
    ensures found.Some? <==> name == "Home to Campus" || name == "Campus to UTC" || name == "Downtown Shuttle"
    ensures found.Some? ==> found.value == RouteInfo[name]
    ensures found.Some? ==> found.value.duration != FallbackInfo.duration
  {
    if name in RouteInfo then Some(RouteInfo[name]) else None
  }

  /**
   * getRouteDetails: the table entry for the route's name, else the fallback.
   * Every route gets renderable details, and the fallback's 20-minute
   * duration appears exactly for the names without an entry.
   */
  function GetRouteDetails(route: Route): (info: RouteMetadata)
    ensures route.name in RouteInfo ==> info == RouteInfo[route.name]
    ensures route.name !in RouteInfo ==> info == FallbackInfo
    ensures info.duration == "Approx. 20 minutes" <==> route.name !in RouteInfo
    ensures info.intermediateStops != []
  {
    match LookupRouteInfo(route.name)
    case Some(entry) => entry
    case None => FallbackInfo
  }

  /** Each seed route shows its own table entry, never the sample fallback. */
  lemma DefaultRoutesHaveDetails()
    ensures forall k :: 0 <= k < |DefaultRoutes| ==> GetRouteDetails(DefaultRoutes[k]) != FallbackInfo
  {
  }

}
