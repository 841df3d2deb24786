/**
 * The saved-route lifecycle: the module-level state of the page (the saved
 * list and the route awaiting confirmation) together with the storage key
 * it is persisted under, and the handlers that change them.
 */
module SavedRoutes {
  import opened Wrappers
  import opened Text
  import opened StopCatalog
  import opened Routes
  import opened RouteDetails
  import opened Storage
  import opened Submission

  class RouteStore {
    /** savedRoutes: the saved trips, in the order the page lists them. */
    var savedRoutes: seq<Route>
    /** pendingRoute: the route shown as "Route Found!" and not yet saved (null when None). */
    var pendingRoute: Option<Route>
    /** The storage key's current content. */
    var storage: Slot

    /**
     * Every route the page holds satisfies the route invariant, and so does
     * what is stored. Stored data is adopted without re-validation, so this
     * holds for a session whose storage held only routes the page wrote.
     * No method requires it: it is an invariant the methods only preserve.
     */
    ghost predicate Sound()
      reads this
    {
      AllWellFormed(savedRoutes)
      && (pendingRoute.Some? ==> WellFormedRoute(pendingRoute.value))
      && SlotWellFormed(storage)
    }

    /** The storage key holds exactly the in-memory list. */
    ghost predicate Synced()
      reads this
    {
      LoadRoutes(storage) == Some(savedRoutes)
    }

    /** Page load: an empty list, nothing pending, and whatever storage already holds. */
    constructor (slot: Slot)
      ensures savedRoutes == [] && pendingRoute == None && storage == slot
      ensures SlotWellFormed(slot) ==> Sound()
    {
      savedRoutes := [];
      pendingRoute := None;
      storage := slot;
    }

    /** saveRoutesToStorage: write the whole list; a failed write leaves storage untouched. */
    method SaveRoutesToStorage(writeOk: bool)
      modifies this`storage
      ensures storage == SaveRoutes(old(storage), savedRoutes, writeOk)
      ensures writeOk ==> Synced()
      ensures old(Sound()) ==> Sound()
    {
      storage := SaveRoutes(storage, savedRoutes, writeOk);
    }

    /**
     * initSavedRoutes: adopt a non-empty stored list verbatim without
     * writing; otherwise seed the three default routes and write them.
     */
    method InitSavedRoutes(writeOk: bool)
      modifies this`savedRoutes, this`storage
      ensures savedRoutes == InitialRoutes(LoadRoutes(old(storage)))
      ensures storage == if LoadRoutes(old(storage)).Some? && LoadRoutes(old(storage)).value != []
                         then old(storage)
                         else SaveRoutes(old(storage), DefaultRoutes, writeOk)
      ensures writeOk ==> Synced()
      ensures old(Sound()) ==> Sound()
    {
      var stored := LoadRoutes(storage);
      if stored.Some? && |stored.value| > 0 {
        savedRoutes := stored.value;
      } else {
        savedRoutes := DefaultRoutes;
        SaveRoutesToStorage(writeOk);
      }
    }

    /** openModalForNewRoute: show the route's details and hold it as pending. */
    method OpenModalForNewRoute(route: Route) returns (info: RouteMetadata)
      modifies this`pendingRoute
      ensures pendingRoute == Some(route)
      ensures info == GetRouteDetails(route)
      ensures WellFormedRoute(route) && old(Sound()) ==> Sound()
    {
      info := GetRouteDetails(route);
      pendingRoute := Some(route);
    }

    /** closeModal (close button, overlay click, and the end of a save): drop the pending route. */
    method CloseModal()
      modifies this`pendingRoute
      ensures pendingRoute == None
      ensures old(Sound()) ==> Sound()
    {
      pendingRoute := None;
    }

    /**
     * handleFormSubmit: trim the three fields, reject a blank field, then
     * reject a stop outside the catalog; otherwise stage the route as
     * pending. The saved list and storage never change here, and a rejected
     * submission changes nothing at all.
     */
    method HandleFormSubmit(nameField: string, fromField: string, toField: string)
      returns (outcome: Result<Route, ValidationError>)
      modifies this`pendingRoute
      ensures outcome == Validate(nameField, fromField, toField)
      ensures pendingRoute == if outcome.Ok? then Some(outcome.value) else old(pendingRoute)
    {
      var name := Trim(nameField);
      var from := Trim(fromField);
      var to := Trim(toField);
      if name == [] || from == [] || to == [] {
        return Err(MissingField);
      }
      if !IsValidStop(from) || !IsValidStop(to) {
        return Err(UnknownStop);
      }
      var newRoute := Route(name, from, to, false);
      var _ := OpenModalForNewRoute(newRoute);
      outcome := Ok(newRoute);
    }

    /**
     * The modal's save button: a pending route is appended to the list and
     * the list is written; in every case the modal closes and nothing is
     * pending afterwards.
     */
    method ConfirmSave(writeOk: bool)
      modifies this
      ensures savedRoutes == if old(pendingRoute).Some? then old(savedRoutes) + [old(pendingRoute).value]
                             else old(savedRoutes)
      ensures storage == if old(pendingRoute).Some? then SaveRoutes(old(storage), savedRoutes, writeOk)
                         else old(storage)
      ensures pendingRoute == None
      ensures old(pendingRoute).Some? && writeOk ==> Synced()
      ensures old(Sound()) ==> Sound()
    {
      if pendingRoute.Some? {
        savedRoutes := savedRoutes + [pendingRoute.value];
        SaveRoutesToStorage(writeOk);
      }
      CloseModal();
    }

    /**
     * removeRoute: splice(index, 1) on the list, then write the list; the
     * write happens even when the index is past the end and nothing was
     * removed.
     */
    method RemoveRoute(index: nat, writeOk: bool)
      modifies this`savedRoutes, this`storage
      ensures savedRoutes == Splice(old(savedRoutes), index)
      ensures index < |old(savedRoutes)| ==> savedRoutes == old(savedRoutes)[..index] + old(savedRoutes)[index + 1..]
      ensures storage == SaveRoutes(old(storage), savedRoutes, writeOk)
      ensures writeOk ==> Synced()
      ensures old(Sound()) ==> Sound()
    {
      savedRoutes := Splice(savedRoutes, index);
      SaveRoutesToStorage(writeOk);
    }
  }
}
