/** Saved routes: the record, the three seed routes and deletion by position. */
module Routes {
  import opened StopCatalog

  /** { name, from, to, isDefault }: a named pair of stops; isDefault marks a seed route. */
  datatype Route = Route(name: string, from: string, to: string, isDefault: bool)

  /**
   * The invariant a route created by the application satisfies: a non-empty
   * name and both ends taken from the catalog.
   */
  predicate WellFormedRoute(r: Route)
  {
    r.name != [] && r.from in BusStops && r.to in BusStops
  }

  predicate AllWellFormed(routes: seq<Route>)
  {
    forall k :: 0 <= k < |routes| ==> WellFormedRoute(routes[k])
  }

  /** The list initSavedRoutes seeds when storage holds nothing usable. */
  const DefaultRoutes: seq<Route> := [
    Route("Home to Campus", "Arriba St x Regents", "SDSU Transit Center", true),
    Route("Campus to UTC", "College Ave x Montezuma Rd", "El Cajon Blvd x College Ave", true),
    Route("Downtown Shuttle", "Broadway x 1st Ave", "Front St x B St", true)
  ]

  /** The seed routes: three of them, "Home to Campus" first, all marked default and all well formed. */
  lemma DefaultRoutesWellFormed()
    ensures |DefaultRoutes| == 3
    ensures DefaultRoutes[0].name == "Home to Campus"
    ensures forall k :: 0 <= k < |DefaultRoutes| ==> DefaultRoutes[k].isDefault
    ensures AllWellFormed(DefaultRoutes)
  {
  }

  /**
   * savedRoutes.splice(index, 1) for a non-negative index: the route at that
   * position leaves and the later ones move down by one; an index past the
   * end changes nothing.
   */
  function Splice(routes: seq<Route>, index: nat): (r: seq<Route>)
    ensures index >= |routes| ==> r == routes
    ensures index < |routes| ==> |r| == |routes| - 1
    ensures forall k :: 0 <= k < index && k < |r| ==> r[k] == routes[k]
    ensures forall k :: index <= k < |r| ==> r[k] == routes[k + 1]
  {
    if index < |routes| then routes[..index] + routes[index + 1..] else routes
  }

  /** Deletion removes exactly one occurrence of the indexed route and keeps every other one. */
  lemma {:induction false} SpliceRemovesOne(routes: seq<Route>, index: nat)
    requires index < |routes|
    ensures multiset(Splice(routes, index)) + multiset{routes[index]} == multiset(routes)
  {
    assert routes == routes[..index] + [routes[index]] + routes[index + 1..];
  }

  /** Deletion never breaks the route invariant of the surviving routes. */
  lemma SplicePreservesWellFormed(routes: seq<Route>, index: nat)
    requires AllWellFormed(routes)
    ensures AllWellFormed(Splice(routes, index))
  {
  }

  /** Confirming a route appends it: the old list is a prefix and the new route is last. */
  lemma AppendPreservesWellFormed(routes: seq<Route>, route: Route)
    requires AllWellFormed(routes) && WellFormedRoute(route)
    ensures AllWellFormed(routes + [route])
  {
  }
}
