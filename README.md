# SmartStop saved-route lifecycle, in Dafny

This project models the saved-route lifecycle of the SmartStop trip page (`script.js`). A user names a trip and picks a start stop and an end stop from a fixed catalog of twenty bus stops. The form is checked. A valid trip becomes the *pending* route, shown in a "Route Found!" modal. Saving appends it to the list of saved trips and writes the whole list to local storage. Closing the modal discards it. A saved trip can be deleted by its position. On page load the list is taken from storage when storage holds a non-empty array. Otherwise three default routes are seeded and written. Each route's detail view comes from a three-entry table, with a fixed fallback for every other name.

Modules, one per component of the page:

- `Wrappers`: `Option` (JavaScript's `null`) and `Result` (an alert's rejection).
- `Text`: `String.prototype.trim`, with the full ECMAScript set of white-space and line-terminator code points.
- `StopCatalog`: `BUS_STOPS`, `Array.prototype.indexOf` and `isValidStop`.
- `Routes`: the route record, the three seed routes, the route invariant, and `splice(index, 1)`.
- `RouteDetails`: `ROUTE_INFO`, its fallback and `getRouteDetails`.
- `Storage`: what the storage key holds and how it is read (`LoadRoutes`) and written (`SaveRoutes`). Also the start-up choice (`InitialRoutes`) between the stored list and the seeds.
- `Submission`: the checks `handleFormSubmit` makes before staging a route.
- `SavedRoutes`: class `RouteStore`. It holds the page's module-level state (`savedRoutes`, `pendingRoute`) and the storage key's content. Its methods are the handlers that change that state.

Storage is a field of type `Slot`: `Absent`, `Malformed` (text that is not JSON), `NonArray`, or `ArrayOf(routes)`. Whether a write succeeds (it can fail, for example on quota) is a `writeOk` parameter. A failed write leaves the slot as it was, as the swallowed exception does in the source.

`removeRoute` (script.js:331-335) writes the list even when the index is past the end and nothing is removed. `RouteStore.RemoveRoute` does the same.

## Model

| member | source | states |
|---|---|---|
| `Text.TrimLeft` | script.js:305-307 | the result is a suffix of the input, everything dropped is white space, and the result does not start with white space |
| `Text.TrimRight` | script.js:305-307 | the result is a prefix of the input, everything dropped is white space, and the result does not end with white space |
| `Text.Trim` | script.js:305-307 | the trimmed field has no white space at either end, and it is empty exactly when the raw field is blank (all white space) |
| `Text.TrimCutsOnlyWhitespace` | script.js:305-307 | the trimmed field is a middle piece of the raw field, and everything cut from either side of it is white space |
| `Text.TrimIgnoresPadding` | script.js:305-307 | white space added before or after a field does not change its trimmed value |
| `Text.TrimIdempotent` | script.js:305-307 | trimming an already trimmed value changes nothing |
| `StopCatalog.IndexOf` | script.js:147 | `indexOf` returns -1 exactly when the value is absent; otherwise it returns a position holding the value with no earlier occurrence |
| `StopCatalog.IsValidStop` | script.js:146-148 | a name is a valid stop exactly when it is one of the `BUS_STOPS` entries |
| `StopCatalog.CatalogEntriesDistinct` | script.js:3-24 | the catalog has twenty entries and no two are equal |
| `StopCatalog.MembershipIsCaseSensitive` | script.js:146-148 | "SDSU Transit Center" is a stop, but the same name in lower case is not |
| `StopCatalog.MembershipIsExact` | script.js:146-148 | a catalog name with a leading space is not a stop (the match is exact, with no trimming) |
| `StopCatalog.UnknownNamesAreNotStops` | script.js:146-148 | "Nowhere St" and the empty name are not stops |
| `Routes.DefaultRoutesWellFormed` | script.js:122-141 | there are three seed routes, "Home to Campus" is first, all are marked default, and each has a non-empty name and catalog stops |
| `Routes.Splice` | script.js:332 | for an index in range, the list loses one element: earlier routes keep their positions and later ones move down by one; an index past the end leaves the list unchanged |
| `Routes.SpliceRemovesOne` | script.js:331-335 | deletion removes exactly one occurrence of the indexed route and keeps every other route |
| `Routes.SplicePreservesWellFormed` | script.js:331-335 | deleting a route keeps every surviving route well formed |
| `Routes.AppendPreservesWellFormed` | script.js:376-383 | appending a well-formed pending route to a well-formed list gives a well-formed list |
| `RouteDetails.LookupRouteInfo` | script.js:150-152 | the table has an entry exactly for "Home to Campus", "Campus to UTC" and "Downtown Shuttle", and the entry found for a name is that name's table entry, and no entry has the fallback's duration |
| `RouteDetails.GetRouteDetails` | script.js:150-161 | a name in the table gets its table entry, and any other name gets the whole fallback record; the duration is "Approx. 20 minutes" exactly when the name is not in the table; every route gets at least one intermediate stop to show |
| `RouteDetails.DefaultRoutesHaveDetails` | script.js:27-46 | each seed route has its own table entry and never gets the fallback |
| `Storage.LoadRoutes` | script.js:94-104 | the load returns a list exactly when the key holds an array, and that list is the array; a missing key, malformed text or a non-array gives null |
| `Storage.SaveRoutes` | script.js:106-112 | after a successful write, loading returns exactly the written list; a failed write leaves storage as it was |
| `Storage.InitialRoutes` | script.js:114-144 | the starting list is never empty; it is the stored list when that list is present and non-empty, and otherwise the three seed routes |
| `Storage.InitialRoutesStable` | script.js:114-144 | once the starting list has been written, the next page load starts from the same list |
| `Storage.EmptiedListReseeds` | script.js:117-143 | a list emptied by deletions and then written comes back as the seed routes on the next load |
| `Storage.InitialRoutesWellFormed` | script.js:114-144 | when storage holds only well-formed routes, every route of the starting list is well formed |
| `Submission.Validate` | script.js:302-329 | a blank field (after trimming) is rejected as missing; if no field is blank, a start or end stop outside the catalog is rejected as unknown; otherwise the staged route is the trimmed fields with `isDefault` false |
| `Submission.AcceptedRouteWellFormed` | script.js:321-326 | a staged route is a user route with a non-empty name, catalog stops, and no white space left around any field |
| `Submission.ResubmitStagesSameRoute` | script.js:305-326 | submitting a staged route's own fields stages the same route again |
| `Submission.PaddingDoesNotMatter` | script.js:305-307 | white space added before or after each field, chosen separately for each field, does not change whether a submission is accepted, or the route it stages |
| `Submission.MissingFieldCheckedFirst` | script.js:309-319 | a blank field is reported as missing even when the other stop is unknown |
| `SavedRoutes.RouteStore.constructor` | script.js:55-56 | the page starts with no saved routes and nothing pending |
| `SavedRoutes.RouteStore.SaveRoutesToStorage` | script.js:106-112 | storage receives the whole in-memory list; after a successful write, storage and memory agree; the route invariant is kept |
| `SavedRoutes.RouteStore.InitSavedRoutes` | script.js:114-144 | the list becomes the starting list; a non-empty stored list is adopted and nothing is written; otherwise the seeds are written; the route invariant is kept |
| `SavedRoutes.RouteStore.OpenModalForNewRoute` | script.js:283-290 | the route becomes pending, and the modal shows its looked-up details; opening it for a well-formed route keeps the route invariant |
| `SavedRoutes.RouteStore.CloseModal` | script.js:276-281 | nothing is pending afterwards, and the list and storage are untouched |
| `SavedRoutes.RouteStore.HandleFormSubmit` | script.js:302-329 | the outcome is the one `Validate` gives; an accepted route becomes pending; a rejection leaves the pending route as it was; the list and storage never change |
| `SavedRoutes.RouteStore.ConfirmSave` | script.js:376-383 | with a route pending, the list gains it at the end and the whole list is written; with nothing pending, the list and storage are unchanged; in both cases nothing is pending afterwards |
| `SavedRoutes.RouteStore.RemoveRoute` | script.js:331-335 | the list becomes `splice(index, 1)` of the old list, which is `s[..i] + s[i+1..]` for an index in range; the list is written even when nothing was removed |

## Left out

- Rendering and DOM work are not modelled: `populateStopsList`, `createTripCard`, `renderSavedTrips`, `buildRouteDetailsHTML`, `openModal`, `openModalForSavedRoute`, the sidebar functions, and the aria and class toggling. They only build markup or show views. `openModalForSavedRoute` changes no state; its lookup is `GetRouteDetails`.
- `alert` is replaced by the `ValidationError` returned from `RouteStore.HandleFormSubmit`.
- `localStorage`, `JSON.parse`, `JSON.stringify` and `console.warn` are foreign calls and are abstracted by the `Slot` datatype. The serialized text is not modelled. Only its parsed shape is: absent, malformed, not an array, or an array.
- An array stored by something other than this page may hold elements that are not route objects. The source adopts them verbatim. The model's `ArrayOf` holds routes only, so it does not capture such elements.
- `ROUTE_INFO[route.name]` on an object literal also finds inherited properties such as `constructor`. The model looks names up in a plain map over the three keys.
- `RouteStore.RemoveRoute` takes a `nat` index. `splice` with a negative index removes from the end, but indices only come from `forEach` positions in `renderSavedTrips`.
- `Text.Trim`: its own contract gives only the shape of the result (no white space at either end, empty exactly when the field is blank). That the result is a middle piece of the field, with only white space cut away, is stated by `Text.TrimCutsOnlyWhitespace`. It is kept out of `Trim`'s contract because every proof that calls `Trim` would otherwise pay for it.
- `RouteStore.HandleFormSubmit` does not restate that the route invariant is kept. That fact is stated by `Submission.AcceptedRouteWellFormed`, together with the method's own `ensures`.
- Event wiring and the browser's event loop (script.js:353-389) are not modelled. Every handler runs to completion, one at a time, and there is no concurrency to model.
