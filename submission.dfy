/** Validation of the "new route" form (handleFormSubmit before the route is staged). */
module Submission {
  import opened Wrappers
  import opened Text
  import opened StopCatalog
  import opened Routes

  /** Why a submission is rejected; each corresponds to one alert of the form. */
  datatype ValidationError =
    | MissingField   // "All fields required"
    | UnknownStop    // "One or more stops are not recognized."

  /**
   * The route a submission of the three raw field values stages, or the
   * reason it is rejected. The fields are trimmed first; a blank field is
   * reported before an unknown stop.
   */
  function Validate(nameField: string, fromField: string, toField: string): (res: Result<Route, ValidationError>)
    ensures res == Err(MissingField) <==> AllWhitespace(nameField) || AllWhitespace(fromField) || AllWhitespace(toField)
    ensures res == Err(UnknownStop) <==>
      !AllWhitespace(nameField) && !AllWhitespace(fromField) && !AllWhitespace(toField)
      && (Trim(fromField) !in BusStops || Trim(toField) !in BusStops)
    ensures res.Ok? ==> res.value == Route(Trim(nameField), Trim(fromField), Trim(toField), false)
  {
    var name := Trim(nameField);
    var from := Trim(fromField);
    var to := Trim(toField);
    if name == [] || from == [] || to == [] then Err(MissingField)
    else if !IsValidStop(from) || !IsValidStop(to) then Err(UnknownStop)
    else Ok(Route(name, from, to, false))
  }

  /** A staged route is a user route that satisfies the route invariant, with no padding left on its fields. */
  lemma AcceptedRouteWellFormed(nameField: string, fromField: string, toField: string)
    requires Validate(nameField, fromField, toField).Ok?
    ensures var r := Validate(nameField, fromField, toField).value;
      WellFormedRoute(r) && !r.isDefault
      && Trim(r.name) == r.name && Trim(r.from) == r.from && Trim(r.to) == r.to
  {
    var res := Validate(nameField, fromField, toField);
    assert res != Err(MissingField) && res != Err(UnknownStop);
    assert Trim(nameField) != [];
    assert Trim(fromField) in BusStops && Trim(toField) in BusStops;
    TrimIdempotent(nameField);
    TrimIdempotent(fromField);
    TrimIdempotent(toField);
  }

  /** Submitting a staged route's own fields stages the same route again. */
  lemma ResubmitStagesSameRoute(nameField: string, fromField: string, toField: string)
    requires Validate(nameField, fromField, toField).Ok?
    ensures var r := Validate(nameField, fromField, toField).value;
      Validate(r.name, r.from, r.to) == Ok(r)
  {
    TrimIdempotent(nameField);
    TrimIdempotent(fromField);
    TrimIdempotent(toField);
  }

  /** Whitespace typed around any of the three fields does not change the outcome. */
  lemma PaddingDoesNotMatter(
    nameField: string, fromField: string, toField: string,
    preName: string, postName: string,
    preFrom: string, postFrom: string,
    preTo: string, postTo: string)
    requires AllWhitespace(preName) && AllWhitespace(postName)
    requires AllWhitespace(preFrom) && AllWhitespace(postFrom)
    requires AllWhitespace(preTo) && AllWhitespace(postTo)
    ensures Validate(preName + nameField + postName, preFrom + fromField + postFrom, preTo + toField + postTo)
         == Validate(nameField, fromField, toField)
  {
    TrimIgnoresPadding(preName, nameField, postName);
    TrimIgnoresPadding(preFrom, fromField, postFrom);
    TrimIgnoresPadding(preTo, toField, postTo);
  }

  /** A blank field is reported as missing even when the other stop is not in the catalog. */
  lemma MissingFieldCheckedFirst()
    ensures Validate("My Trip", "   ", "Nowhere St") == Err(MissingField)
  {
    assert AllWhitespace("   ");
  }
}
