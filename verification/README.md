# Bus-tracking dashboard: route drawing, vehicle simulation and map synchronisation

A Dafny model of the core of a transit dashboard written in React and Leaflet.
Companies draw bus routes on a map. A simulated bus steps along the selected
route. The map component keeps a Leaflet map in step with the application state.
The model covers three parts, each written as pure transition functions over
immutable datatypes:

- **Route-drawing session and route list** (`RouteEditor`, `Waypoints`;
  `App.tsx`). The drawing form holds an ordered list of waypoints, a
  "creating" flag, the id of the route being edited and the form fields. The
  model covers the edits made while drawing (map click, address pick, stop
  toggle, stop rename, removal, marker drag) and the guarded save. Save either
  rewrites the edited route or appends a new one and selects it. It also
  covers discarding, incident reports on the active route and the QR-code
  lookup.
- **Vehicle motion simulator** (`Simulator`; `App.tsx`). The `setInterval`
  timer becomes an explicit `Tick`. Each tick moves the position index one
  place along the path, modulo the path length. The path is the route's
  `geometry` when it is defined, and its `points` otherwise.
- **Map synchronisation** (`BusMap`; `components/BusMap.tsx`). The Leaflet
  map is an abstract `Surface` record. It holds the base tile layers, the zoom
  control, the route line, the stop markers, the bus marker, the drawing
  preview, the click listener and a log of camera moves. Each `useEffect`
  becomes a transition on that record.
- **Types** (`Types`; `types.ts`). The string unions (`UserRole`,
  `MapStyle`, route status, `IncidentType`) become datatypes. Each one has a
  `Parse` function that admits exactly its strings. `LatLng` always has
  `lat`/`lng`, and `isStop`/`stopName` are `Option`s. `BusRoute` always has
  `points`, `qrCodeData` and `isOffRoute`, and `geometry` is an `Option`.

Inputs that come from outside are parameters:

- the routing service's answer at save;
- the `Date.now()` stamps behind a new route's id and QR payload;
- the user's company and the company name;
- the incident summary text;
- the scanned QR payload;
- the address the user picks;
- the bearing function.

Coordinates are `real`.

The model follows the code in a few places where its behaviour is easy to
misread:

- The route line is amber only for `DELAYED`. A `TRAFFIC` status keeps the
  default blue (`BusMap.TrafficReportNotAmber`).
- The simulator and the route line use `geometry` whenever it is defined,
  even when it is empty (`geometry || points`; an empty array is truthy). An
  empty geometry therefore starts no simulator.
- Toggling at an index outside the list throws a `TypeError`, because the
  handler reads `isStop` of an absent entry (App.tsx:199). Renaming at such
  an index writes an entry holding only a `stopName` (App.tsx:205). The model
  requires the index to be in range for both (see Left out).
- The code does not refuse point edits while a save is in flight, and does
  not detect stale async answers. Save is one atomic step here.
- The active route is the FIRST route carrying the selected id
  (`routes.find`). A new route's id is a clock stamp, so a saved route is
  active only when no older route has that id (`RouteEditor.SavedRouteIsActive`).

## Model

| member | source | states |
|---|---|---|
| Types.ParseRole | types.ts:2-6 | a role string is exactly one of COMPANY, DRIVER, USER, and it names that role |
| Types.ParseMapStyle | types.ts:8 | a map style is exactly one of 'light', 'dark', 'satellite' |
| Types.ParseStatus | types.ts:32 | a route status is exactly one of NORMAL, DELAYED, BROKEN, TRAFFIC |
| Types.ParseIncident | types.ts:51 | an incident type is exactly one of BREAKDOWN, TRAFFIC, ACCIDENT, OTHER, CLEAR |
| Types.NamesRoundTrip | types.ts:2-51 | printing any enumeration value and parsing it back gives the value |
| Waypoints.AppendClicked | App.tsx:223-225 | a click appends `{lat, lng, isStop: false}` at the end and keeps every earlier entry |
| Waypoints.AppendStop | App.tsx:231-235 | an address pick appends the location at the end with its stop flag set |
| Waypoints.ToggleStop | App.tsx:197-201 | only entry i changes, and only its stop flag flips (an absent flag reads as false); length and all other entries are unchanged |
| Waypoints.ToggleTwice | App.tsx:197-201 | toggling twice restores every stop flag, and restores the list when the flag at i was present |
| Waypoints.RenameStop | App.tsx:203-207 | only entry i changes, and only its stop name, whether or not it is a stop |
| Waypoints.RenameLastWins | App.tsx:203-207 | the second rename overrides the first, and renaming never changes which entries are stops |
| Waypoints.RemoveAt | App.tsx:209-211 | removes exactly the entry at the index and keeps the others in order; an index outside the list keeps everything |
| Waypoints.RemoveAtShifts | App.tsx:209-211 | after removal the list is one shorter, entries before the index stay, and those after move down by one |
| Waypoints.RemoveUndoesAppend | App.tsx:209-225 | removing the point a click just appended gives back the list before the click |
| Waypoints.MoveTo | components/BusMap.tsx:250-255 | a drag moves only entry i to the drop coordinates and keeps its stop flag and name |
| Waypoints.MoveBack | components/BusMap.tsx:250-255 | dragging a marker back to where it was restores the list |
| RouteEditor.FindFirst | App.tsx:263 | finds the first route satisfying the test, or none when no route does |
| RouteEditor.UpdateWhere | App.tsx:164-171 | routes carrying the id are rewritten, all others are kept, and the length is unchanged |
| RouteEditor.ActiveRoute | App.tsx:120 | the active route is the first listed route with the selected id, and is absent exactly when no route has that id |
| RouteEditor.StartCreating | App.tsx:148-156 | opens a session with no edited route, no points and empty form fields; routes and selection are untouched |
| RouteEditor.EditForm | App.tsx:543-545 | typing sets the name, schedule and itinerary and leaves the points and flags alone |
| RouteEditor.WithPoints | App.tsx:227-229 | the points-change callback replaces the point list and nothing else |
| RouteEditor.MapClick | App.tsx:223-225 | a forwarded click changes the session's point list as AppendClicked does, and nothing else |
| RouteEditor.AddPointFromAddress | App.tsx:231-235 | an address pick appends a stop and clears the search results and the search text; routes are untouched |
| RouteEditor.TogglePointIsStop | App.tsx:197-201 | the toggle changes the point list as ToggleStop does and nothing else in the dashboard state |
| RouteEditor.UpdateStopName | App.tsx:203-207 | the rename changes the point list as RenameStop does and nothing else |
| RouteEditor.RemovePoint | App.tsx:209-211 | the removal changes the point list as RemoveAt does and nothing else |
| RouteEditor.MovePoint | App.tsx:227-229 | a drag reported back changes the point list as MoveTo does and nothing else |
| RouteEditor.Discard | App.tsx:635 | closes the session (flag down, no edited id, no points) and leaves routes, selection and form text untouched |
| RouteEditor.EditTarget | App.tsx:163 | the edit branch is taken exactly when the edited id is present and non-empty |
| RouteEditor.CompanyFor | App.tsx:176 | a new route takes the user's non-empty company id, and otherwise exactly "comp-1" |
| RouteEditor.SaveRoute | App.tsx:158-195 | with under two points or an empty name nothing changes; in edit mode only the matching routes get the new name/points/geometry/schedule/itinerary and the length is kept; otherwise exactly one NORMAL, on-route route is appended and selected, with the session's name, points, schedule and itinerary, the routing answer as geometry, id "route-" and QR payload "meuonibus://route/" followed by the clock stamps, the user's company (or "comp-1") and the company name, and no incident, position or driver; either way the session closes and the name is cleared, but not the schedule or itinerary |
| RouteEditor.StatusFor | App.tsx:257 | CLEAR gives NORMAL, TRAFFIC gives TRAFFIC, every other type gives DELAYED, and no report gives BROKEN |
| RouteEditor.ReportIncident | App.tsx:252-260 | only routes with the selected id take the incident's status and the summary verbatim; without an active route nothing changes |
| RouteEditor.ScanSuccess | App.tsx:262-271 | the first route whose QR data equals the payload becomes selected; with no match the outcome is "not found" and the state is unchanged |
| RouteEditor.WellFormedPreserved | App.tsx:159-187 | save, incident reports and QR lookups keep every stored route at two points or more |
| RouteEditor.SavedRouteIsActive | App.tsx:173-187 | a route created by save, with an id no older route carries, becomes the active route |
| RouteEditor.DiscardRefusesSave | App.tsx:159 | after a discard, save is refused and changes nothing |
| RouteEditor.FreshSessionRefusesSave | App.tsx:148-159 | a session just opened is refused by save, with no change |
| RouteEditor.DiscardThenStart | App.tsx:148-156 | discarding and then starting a new route gives the same dashboard state as starting it directly |
| RouteEditor.DrawAndSaveScenario | App.tsx:158-188 | click, address pick, name and save with a three-point routing answer give a NORMAL route with two points (the second a stop) and three-point geometry, and select it |
| RouteEditor.UnknownQrScenario | App.tsx:262-271 | scanning a payload no route carries reports "not found" and changes nothing |
| Simulator.Start | App.tsx:122-126 | a simulator starts, at index 0 on the route's path, exactly when the dashboard shows an active route that is running or watched by a passenger, no route is being drawn, and the path is non-empty |
| Simulator.Tick | App.tsx:127-131 | the index advances by one and wraps to 0 after the last point; the new position and the point after it are emitted |
| Simulator.NextPointIsNextPosition | App.tsx:128-130 | the point a tick announces as next is the position the following tick emits |
| Simulator.Run | App.tsx:127-131 | any number of ticks keeps the simulator on the same path with a valid index |
| Simulator.RunIndex | App.tsx:128 | within one lap, k ticks move the index to (start + k) mod n |
| Simulator.FullLapReturns | App.tsx:128 | n ticks on an n-point path return the simulator to its start |
| Simulator.RunAdd | App.tsx:127-131 | a ticks then b ticks equal a + b ticks |
| Simulator.LapsReturn | App.tsx:128 | any whole number of laps returns the simulator to its start |
| Simulator.After | App.tsx:127-131 | on the nominal schedule of the interval, one tick per full 4000 ms period has fired at any time after the start |
| Simulator.BetweenTicksNothingMoves | App.tsx:127-131 | on the nominal schedule, any moment inside the k-th 4000 ms period shows the state after exactly k ticks |
| Simulator.LapPeriod | App.tsx:127-131 | on the nominal schedule, the bus is back at its starting index every n periods of 4000 ms on an n-point path |
| Tracking.DrawingStopsSimulator | App.tsx:122-123 | once a drawing session is opened no simulator starts, whatever route is selected |
| Tracking.SavedRouteStarts | App.tsx:122-126 | a freshly created route becomes active; when it is running or a passenger is watching, the simulator runs on it from index 0 (on its waypoints when routing gave no geometry, otherwise on the geometry, and not at all when that geometry is empty); otherwise no simulator starts |
| Simulator.FourPointScenario | App.tsx:124-130 | on a four-point geometry three ticks reach index 3 and a fourth wraps to 0 |
| BusMap.Mount | components/BusMap.tsx:40-62 | the map is created only when a container exists and no map does; it opens at zoom 15 on the bus or the default centre, with the zoom control created but not shown |
| BusMap.MountOnce | components/BusMap.tsx:41 | mounting a second time changes nothing |
| BusMap.SyncZoom | components/BusMap.tsx:64-77 | corrected effect: the zoom control ends on the map iff a route is shown and not navigating; it is added only when absent and removed only when present |
| BusMap.SyncZoomIdempotent | components/BusMap.tsx:69-76 | the corrected zoom effect run twice is the same as run once |
| BusMap.SyncZoomAsWritten | components/BusMap.tsx:69-76 | effect as written: on a fresh control it shows iff it should, but once the container exists a hidden control is never added again |
| BusMap.AsWrittenAgreesInStep | components/BusMap.tsx:69-76 | while the control is either not built or built and on the map, the written effect equals the corrected one, so they differ only on a removed control |
| BusMap.ZoomControlNotRestored | components/BusMap.tsx:69-76 | show, enter navigation and leave it: as written the control stays off the map, while the corrected effect puts it back |
| BusMap.TileFor | components/BusMap.tsx:87-103 | 'light' and 'satellite' have their own sources; every other value, and an absent style, gives dark |
| BusMap.SetTileStyle | components/BusMap.tsx:79-109 | the previous base layer is removed before the new one is added, and a map with at most one base layer ends with exactly the new one; no other layer changes |
| BusMap.OneBaseLayer | components/BusMap.tsx:83-108 | after any run of style changes there is exactly one base layer, for the last style, and nothing else on the map changed |
| BusMap.SyncClickHandler | components/BusMap.tsx:111-125 | the previous listener is replaced by a single one closing over the current drawing flag and handler |
| BusMap.Click | components/BusMap.tsx:115-119 | a click's coordinates are forwarded iff the listener was registered in drawing mode with a handler |
| BusMap.ClickOnMap | components/BusMap.tsx:115-118 | a click changes the dashboard only when forwarded, and then appends the clicked point |
| BusMap.NoDrawingNoPoints | components/BusMap.tsx:115-118 | outside drawing mode clicks never change the point list; in drawing mode each adds one point |
| BusMap.RouteColor | components/BusMap.tsx:149 | amber iff DELAYED, red iff not delayed and off route, the default blue otherwise |
| BusMap.TrafficReportNotAmber | components/BusMap.tsx:149 | after a TRAFFIC report the active route's line is not amber |
| BusMap.StopMarkers | components/BusMap.tsx:159-174 | every stop marker comes from a waypoint with its stop flag set; no stops give no markers |
| BusMap.StopMarkersAppend | components/BusMap.tsx:159 | the stop markers of a concatenation are those of each part, in order |
| BusMap.StopMarkersSingle | components/BusMap.tsx:159 | one waypoint gives one marker iff it is a stop |
| BusMap.AppendedPointMarkers | components/BusMap.tsx:159-174 | a map click adds no stop marker; an address pick adds exactly one marker, for the picked location, after the existing ones |
| BusMap.AllStopsAllMarkers | components/BusMap.tsx:159-174 | when every waypoint is a stop, marker i is the marker for waypoint i |
| BusMap.SyncRoute | components/BusMap.tsx:137-180 | old line and stops are cleared first; with a route and not drawing, the line follows the path in the route's colour with one marker per stop, and the camera is fitted only with no bus position and not navigating; otherwise the layers stay empty |
| BusMap.SyncRouteForgetsPrevious | components/BusMap.tsx:142-145 | the route and stop layers after the effect do not depend on what was drawn before |
| BusMap.SyncBusMarker | components/BusMap.tsx:182-222 | the bus marker exists iff there is a position and no drawing; it is created only if absent and otherwise moved in place; heading is 0 without a next point; size is 80 navigating and 40 otherwise; navigation recentres at zoom 18, otherwise the camera pans with no zoom |
| BusMap.MarkerNeverRecreated | components/BusMap.tsx:206-211 | over any run of positions the marker is created at most once, keeps its serial and ends at the last position |
| BusMap.BuildPreview | components/BusMap.tsx:229-248 | the preview line runs through the points in order, with one marker per point carrying its index, stop flag and icon size (24 for stops, 14 otherwise) |
| BusMap.SyncPreview | components/BusMap.tsx:224-259 | the old preview always goes; a new one exists iff drawing with a non-empty point list |
| BusMap.DragEnd | components/BusMap.tsx:250-255 | the drag-end patch changes only the dragged entry's coordinates; length, order, stop flag and name are kept |
| BusMap.PreviewDragPatchesOnePoint | components/BusMap.tsx:250-255 | dragging preview marker j and reporting it back is the same as moving entry j of the drawn list |

## Left out

- Leaflet, the DOM, JSX, CSS and the `BusLogo` SVG are left out. The map exists only as the `Surface` record. Icon HTML, polyline weight, opacity and dash pattern, and animation options are not modelled. The fit padding `[40, 40]` is recorded as 40.
- The bearing trigonometry (`calculateBearing`) is floating point. It is a function parameter of `BusMap.SyncBusMarker`; only the 0 default without a next point is stated.
- Timers are left out. The 4-second `setInterval` is the explicit `Simulator.Tick`, and `Simulator.After` counts the ticks of the nominal schedule. Effect cleanup, which stops a simulator when its inputs change, appears only as a fresh `Simulator.Start` at index 0. One visible consequence: an incident report replaces the active route object (App.tsx:255-259), so the memoised `activeRoute` changes, the effect restarts, and the simulated bus goes back to the start of its path.
- The `await` in save and in incident reporting is one atomic step. The source writes back the `routes` value captured before the await (App.tsx:164, 186, 255). A change made to the list while the routing or summary service is pending would be overwritten; the model cannot express this.
- The routing service (`fetchBestRoute`), the geocoder (`searchAddress`) and the summary generator (`generateIncidentSummary`) are not part of this model. Their results are parameters, and the model stores whatever answer routing gives, assuming the call returns.
- Simulator.After: takes the 4000 ms interval as exact. `setInterval` guarantees only a minimum delay, and browsers run callbacks late or throttle them in hidden tabs, so the page can show fewer ticks than the nominal schedule. `Simulator.BetweenTicksNothingMoves` and `Simulator.LapPeriod` are statements about that nominal schedule.
- A failing save is left out. `handleSaveRoute` has no `try`/`catch` (App.tsx:158-161). If the routing call rejects, save stops after raising `isOptimizing`: the session stays open and the overlay stays up. The model has no failure input for save.
- `handleAddressSearch` (App.tsx:213-221) is left out: the address results are an input list.
- The `isOptimizing` flag and its overlay are left out. So are the driver CRUD, the company profile form, login, the tab and navigation flags, `isScanning` and the "not found" alert text.
- No shown code sets `editingRouteId` to a value, so there is no operation that enters edit mode. Save's edit branch is modelled as written.
- Waypoints.ToggleStop: requires an index inside the list. Every caller passes the index of a rendered entry. At an outside index the source throws a `TypeError` reading `isStop` of an absent entry (App.tsx:199), and the model has no exception path.
- Waypoints.RenameStop: requires an index inside the list, as every caller passes. At an outside index the source writes an entry holding only `stopName` (App.tsx:205), which `LatLng` cannot represent, since it always has coordinates.
- Unmounting the map (the disposer of the mount effect) is not modelled. Its refs go away with the component.
- The layer refs for the route line and the preview are not reset after their layers are removed. Removing an absent layer is a no-op in Leaflet, so the model tracks only what is on the map.

## Findings

| source | as written | input that shows it | evidently intended | confidence | as-written member | corrected member |
|---|---|---|---|---|---|---|
| components/BusMap.tsx:70-76 | visibility is tested as `zoomCtrl.getContainer() !== undefined`; Leaflet's `Control.remove()` detaches the container but keeps it, so after the first removal the control always counts as visible | a route is shown (control added), navigation mode is entered (control removed), navigation mode is left: the control is never added back | test whether the control is currently on the map, so that it is shown iff a route is present and not navigating | medium: relies on Leaflet 1.x keeping `_container` after `remove()`; not executed | BusMap.ZoomControlNotRestored | BusMap.SyncZoom |
