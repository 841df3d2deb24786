/** The fixed catalog of bus stops and the membership test behind form validation. */
module StopCatalog {

  /** BUS_STOPS: the twenty valid stop names, in the order the suggestion list shows them. */
  const BusStops: seq<string> := [
    "Arriba St x Regents",
    "1st Ave x G St",
    "Broadway x 1st Ave",
    "Front St x B St",
    "5th Ave x Market St",
    "Park Blvd x University Ave",
    "University Ave x Park Blvd",
    "University Ave x Normal St",
    "University Ave x Richmond St",
    "University Ave x Vermont St",
    "University Ave x Herbert St",
    "30th St x Adams Ave",
    "SDSU Transit Center",
    "College Ave x Montezuma Rd",
    "Pearl St x La Jolla Blvd",
    "Christmas Circle x Palm Canyon Rd",
    "Escondido Transit Center",
    "Rancho Bernardo Transit Station",
    "Del Lago Transit Station",
    "El Cajon Blvd x College Ave"
  ]

  /**
   * Array.prototype.indexOf on a list of names, with strict equality: the
   * position of the first occurrence of name in names, or -1 when there is none.
   */
  function IndexOf(names: seq<string>, name: string): (i: int)
    ensures -1 <= i < |names|
    ensures i == -1 <==> name !in names
    ensures 0 <= i ==> names[i] == name && name !in names[..i]
  {
    if names == [] then -1
    else if names[0] == name then 0
    else
      var j := IndexOf(names[1..], name);
      assert j >= 0 ==> names[..j + 1] == [names[0]] + names[1..][..j];
      if j == -1 then -1 else j + 1
  }

  /** isValidStop: exact, case-sensitive membership in the catalog. */
  function IsValidStop(stopName: string): (valid: bool)
    ensures valid <==> stopName in BusStops
  {
    IndexOf(BusStops, stopName) != -1
  }

  /** The catalog lists twenty names, no two alike, so each stop has exactly one position. */
  lemma CatalogEntriesDistinct()
    ensures |BusStops| == 20
    ensures forall i, j :: 0 <= i < j < |BusStops| ==> BusStops[i] != BusStops[j]
  {
  }

  /** Membership is case-sensitive: a catalog name in lower case is not a stop. */
  lemma MembershipIsCaseSensitive()
    ensures IsValidStop("SDSU Transit Center")
    ensures !IsValidStop("sdsu transit center")
  {
    assert BusStops[12] == "SDSU Transit Center";
    assert "sdsu transit center" !in BusStops;
  }

  /** Membership is exact: a catalog name with a leading space is not a stop. */
  lemma MembershipIsExact()
    ensures !IsValidStop(" SDSU Transit Center")
  {
    assert " SDSU Transit Center" !in BusStops;
  }

  /** A name outside the catalog, and the empty name, are not stops. */
  lemma UnknownNamesAreNotStops()
    ensures !IsValidStop("Nowhere St")
    ensures !IsValidStop("")
  {
    assert "Nowhere St" !in BusStops;
    assert "" !in BusStops;
  }
}
