/**
 * The persistence adapter: the saved-route list kept under one storage key
 * (STORAGE_KEY, "smartstopSavedRoutes") as serialized JSON.
 */
module Storage {
  import opened Wrappers
  import opened Routes

  /** The fixed key the list is stored under. */
  const StorageKey: string := "smartstopSavedRoutes"

  /**
   * What the storage key holds, as seen after parsing: nothing, text that is
   * not JSON, JSON that is not an array, or an array of routes.
   */
  datatype Slot = Absent | Malformed | NonArray | ArrayOf(routes: seq<Route>)

  /**
   * loadRoutesFromStorage: the stored array when the key holds one, and null
   * (None) on a missing key, a parse failure or a value of the wrong shape.
   */
  function LoadRoutes(slot: Slot): (stored: Option<seq<Route>>)
    ensures stored.Some? <==> slot.ArrayOf?
    ensures stored.Some? ==> stored.value == slot.routes
  {
    match slot
    case ArrayOf(routes) => Some(routes)
    case _ => None
  }

  /**
   * saveRoutesToStorage: overwrites the key with the whole list; a failed
   * write (writeOk false, e.g. quota exceeded) is swallowed and leaves the
   * key as it was. A successful write is read back as the same list.
   */
  function SaveRoutes(slot: Slot, routes: seq<Route>, writeOk: bool): (written: Slot)
    ensures writeOk ==> LoadRoutes(written) == Some(routes)
    ensures !writeOk ==> written == slot
  {
    if writeOk then ArrayOf(routes) else slot
  }

  /**
   * The list a session starts from (initSavedRoutes): the stored list when
   * it is present and non-empty, otherwise the three seed routes. It is
   * never empty.
   */
  function InitialRoutes(stored: Option<seq<Route>>): (routes: seq<Route>)
    ensures routes != []
    ensures stored.Some? && stored.value != [] ==> routes == stored.value
    ensures stored.None? || stored.value == [] ==> routes == DefaultRoutes
  {
    if stored.Some? && |stored.value| > 0 then stored.value else DefaultRoutes
  }

  /**
   * Start-up is stable: once the list a session starts from has been
   * written, the next session starts from the same list.
   */
  lemma InitialRoutesStable(slot: Slot)
    ensures InitialRoutes(LoadRoutes(SaveRoutes(slot, InitialRoutes(LoadRoutes(slot)), true)))
         == InitialRoutes(LoadRoutes(slot))
  {
  }

  /**
   * A list emptied by deletion does not survive a reload: the next start-up
   * seeds the default routes again.
   */
  lemma EmptiedListReseeds(slot: Slot)
    ensures InitialRoutes(LoadRoutes(SaveRoutes(slot, [], true))) == DefaultRoutes
  {
  }

  /** Storage whose array, if any, holds only well-formed routes. */
  predicate SlotWellFormed(slot: Slot)
  {
    slot.ArrayOf? ==> AllWellFormed(slot.routes)
  }

  /** Starting from well-formed storage, every route of the starting list is well formed. */
  lemma InitialRoutesWellFormed(slot: Slot)
    requires SlotWellFormed(slot)
    ensures AllWellFormed(InitialRoutes(LoadRoutes(slot)))
  {
  }
}
