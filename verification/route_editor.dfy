/**
 The route-drawing session and the route list of the dashboard (App.tsx):
 starting a session, the point edits made while drawing, the guarded save
 that either rewrites the edited route or appends a new one, discarding,
 incident reporting on the active route and the QR-code lookup.

 The `await` inside save and incident reporting is one atomic step here;
 the values that come back from the routing and text services, the
 `Date.now()` stamps and the logged-in user's company are parameters.
 */
module RouteEditor {
  import opened Types
  import Waypoints

  /** The drawing form: the flag, the edited route's id and the form fields. */
  datatype Session = Session(
    isCreating: bool,
    editingId: Option<string>,
    name: string,
    schedule: string,
    itinerary: string,
    points: seq<LatLng>)

  /** One hit of the address search, as shown under the search box. */
  datatype AddressResult = AddressResult(name: string, location: LatLng)

  /** The part of the dashboard state these operations read and write. */
  datatype App = App(
    routes: seq<BusRoute>,
    selectedRouteId: string,
    session: Session,
    addressSearch: string,
    addressResults: seq<AddressResult>)

  /** No drawing is in progress: the flag is down, no route is edited and no point is pending. */
  predicate SessionClosed(s: Session) {
    !s.isCreating && s.editingId.None? && s.points == []
  }

  /** The index of the first route satisfying `p`, as an array search from the front. */
  function FindFirst(routes: seq<BusRoute>, p: BusRoute -> bool): (r: Option<nat>)
    ensures r.Some? ==> r.value < |routes| && p(routes[r.value])
    ensures r.Some? ==> forall j :: 0 <= j < r.value ==> !p(routes[j])
    ensures r.None? <==> forall j :: 0 <= j < |routes| ==> !p(routes[j])
  {
    if |routes| == 0 then None
    else if p(routes[0]) then Some(0)
    else
      match FindFirst(routes[1..], p)
      case None => None
      case Some(k) => Some(k + 1)
  }

  /** Rewrites every route carrying `id` with `f` and keeps all others, position for position. */
  function UpdateWhere(routes: seq<BusRoute>, id: string, f: BusRoute -> BusRoute): (r: seq<BusRoute>)
    ensures |r| == |routes|
    ensures forall k :: 0 <= k < |routes| && routes[k].id == id ==> r[k] == f(routes[k])
    ensures forall k :: 0 <= k < |routes| && routes[k].id != id ==> r[k] == routes[k]
  {
    if |routes| == 0 then []
    else [if routes[0].id == id then f(routes[0]) else routes[0]] + UpdateWhere(routes[1..], id, f)
  }

  /** The route the dashboard shows: the first one whose id is the selected id. */
  function ActiveRoute(app: App): (r: Option<BusRoute>)
    ensures r.Some? ==> r.value in app.routes && r.value.id == app.selectedRouteId
    ensures r.Some? ==>
      exists k :: 0 <= k < |app.routes| && app.routes[k] == r.value
        && forall j :: 0 <= j < k ==> app.routes[j].id != app.selectedRouteId
    ensures r.None? <==> forall k :: 0 <= k < |app.routes| ==> app.routes[k].id != app.selectedRouteId
  {
    match FindFirst(app.routes, (route: BusRoute) => route.id == app.selectedRouteId)
    case None => None
    case Some(k) => Some(app.routes[k])
  }

  /** Opens an empty drawing session for a new route. */
  function StartCreating(app: App): (r: App)
    ensures r.session.isCreating && r.session.editingId.None? && r.session.points == []
    ensures r.session.name == "" && r.session.schedule == "" && r.session.itinerary == ""
    ensures r == app.(session := r.session)
  {
    app.(session := Session(true, None, "", "", "", []))
  }

  /** Typing in the name, schedule and itinerary fields of the form. */
  function EditForm(app: App, name: string, schedule: string, itinerary: string): (r: App)
    ensures r.session.name == name && r.session.schedule == schedule && r.session.itinerary == itinerary
    ensures r.session.points == app.session.points && r.session.isCreating == app.session.isCreating
    ensures r.session.editingId == app.session.editingId
    ensures r == app.(session := r.session)
  {
    app.(session := app.session.(name := name, schedule := schedule, itinerary := itinerary))
  }

  /** Replaces the pending point list; every point edit below goes through here. */
  function WithPoints(app: App, points: seq<LatLng>): (r: App)
    ensures r.session.points == points
    ensures r.session == app.session.(points := points)
    ensures r == app.(session := r.session)
  {
    app.(session := app.session.(points := points))
  }

  /** A map click forwarded while drawing: a non-stop point at the end of the list. */
  function MapClick(app: App, lat: real, lng: real): (r: App)
    ensures r.session.points == Waypoints.AppendClicked(app.session.points, lat, lng)
    ensures r == app.(session := app.session.(points := r.session.points))
  {
    WithPoints(app, Waypoints.AppendClicked(app.session.points, lat, lng))
  }

  /** Picking an address result: a stop at the end of the list, and the search is cleared. */
  function AddPointFromAddress(app: App, location: LatLng): (r: App)
    ensures r.session.points == Waypoints.AppendStop(app.session.points, location)
    ensures r.addressResults == [] && r.addressSearch == ""
    ensures r.routes == app.routes && r.selectedRouteId == app.selectedRouteId
    ensures r.session == app.session.(points := r.session.points)
  {
    WithPoints(app, Waypoints.AppendStop(app.session.points, location)).(addressResults := [], addressSearch := "")
  }

  /** The stop toggle of entry `i` in the point list under the form. */
  function TogglePointIsStop(app: App, i: nat): (r: App)
    requires i < |app.session.points|
    ensures r.session.points == Waypoints.ToggleStop(app.session.points, i)
    ensures r == app.(session := app.session.(points := r.session.points))
  {
    WithPoints(app, Waypoints.ToggleStop(app.session.points, i))
  }

  /** Typing a stop name for entry `i` in the point list under the form. */
  function UpdateStopName(app: App, i: nat, name: string): (r: App)
    requires i < |app.session.points|
    ensures r.session.points == Waypoints.RenameStop(app.session.points, i, name)
    ensures r == app.(session := app.session.(points := r.session.points))
  {
    WithPoints(app, Waypoints.RenameStop(app.session.points, i, name))
  }

  /** The remove button of entry `index` in the point list under the form. */
  function RemovePoint(app: App, index: int): (r: App)
    ensures r.session.points == Waypoints.RemoveAt(app.session.points, index)
    ensures r == app.(session := app.session.(points := r.session.points))
  {
    WithPoints(app, Waypoints.RemoveAt(app.session.points, index))
  }

  /** The drag-end of preview marker `i`, reported back through the points-change callback. */
  function MovePoint(app: App, i: nat, lat: real, lng: real): (r: App)
    requires i < |app.session.points|
    ensures r.session.points == Waypoints.MoveTo(app.session.points, i, lat, lng)
    ensures r == app.(session := app.session.(points := r.session.points))
  {
    WithPoints(app, Waypoints.MoveTo(app.session.points, i, lat, lng))
  }

  /** The "Descartar" button: closes the session and leaves every route alone. */
  function Discard(app: App): (r: App)
    ensures SessionClosed(r.session)
    ensures r.routes == app.routes && r.selectedRouteId == app.selectedRouteId
    ensures r.session.name == app.session.name && r.session.schedule == app.session.schedule
    ensures r.session.itinerary == app.session.itinerary
    ensures r.addressSearch == app.addressSearch && r.addressResults == app.addressResults
  {
    app.(session := app.session.(isCreating := false, editingId := None, points := []))
  }

  /** What save receives from outside: the routing service's answer, two clock readings and the user. */
  datatype SaveInputs = SaveInputs(
    optimized: Option<seq<LatLng>>,
    idStamp: string,
    qrStamp: string,
    userCompanyId: Option<string>,
    companyName: string)

  /** The guard of save (and of the disabled save buttons): two points and a name. */
  predicate CanSave(s: Session) {
    |s.points| >= 2 && s.name != ""
  }

  /** The id of the route being edited, when `editingRouteId` is truthy (present and non-empty). */
  function EditTarget(s: Session): (r: Option<string>)
    ensures r.Some? <==> s.editingId.Some? && s.editingId.value != ""
    ensures r.Some? ==> r == s.editingId
  {
    if s.editingId.Some? && s.editingId.value != "" then s.editingId else None
  }

  /** The company a new route belongs to: the user's, or "comp-1" when there is none. */
  function CompanyFor(userCompanyId: Option<string>): (r: string)
    ensures r != ""
    ensures userCompanyId.Some? && userCompanyId.value != "" ==> r == userCompanyId.value
    ensures !(userCompanyId.Some? && userCompanyId.value != "") ==> r == "comp-1"
  {
    if userCompanyId.Some? && userCompanyId.value != "" then userCompanyId.value else "comp-1"
  }

  /** The route created by a save without an edited route. */
  function NewRoute(s: Session, inputs: SaveInputs): BusRoute {
    BusRoute(
      id := "route-" + inputs.idStamp,
      name := s.name,
      companyId := CompanyFor(inputs.userCompanyId),
      companyName := inputs.companyName,
      points := s.points,
      geometry := inputs.optimized,
      status := Normal,
      incidentDescription := None,
      currentLocation := None,
      qrCodeData := "meuonibus://route/" + inputs.qrStamp,
      isOffRoute := false,
      assignedDriverId := None,
      schedule := Some(s.schedule),
      itineraryText := Some(s.itinerary))
  }

  /** The edit applied to the route being edited: only its authored fields change. */
  function Reauthor(route: BusRoute, s: Session, optimized: Option<seq<LatLng>>): BusRoute {
    route.(name := s.name, points := s.points, geometry := optimized,
           schedule := Some(s.schedule), itineraryText := Some(s.itinerary))
  }

  /**
   The save handler. A session without two points and a name is refused
   with no change at all. Otherwise the edited route is rewritten in place,
   or a new route is appended and selected, and the session is closed; the
   schedule and itinerary fields are left as they were.
   */
  function SaveRoute(app: App, inputs: SaveInputs): (r: App)
    ensures !CanSave(app.session) ==> r == app
    ensures CanSave(app.session) ==>
      && SessionClosed(r.session) && r.session.name == ""
      && r.session.schedule == app.session.schedule
      && r.session.itinerary == app.session.itinerary
      && r.addressSearch == app.addressSearch && r.addressResults == app.addressResults
    ensures CanSave(app.session) && EditTarget(app.session).Some? ==>
      && |r.routes| == |app.routes|
      && r.selectedRouteId == app.selectedRouteId
      && (forall k :: 0 <= k < |app.routes| && app.routes[k].id == app.session.editingId.value ==>
            && r.routes[k] == Reauthor(app.routes[k], app.session, inputs.optimized)
            && r.routes[k].points == app.session.points
            && r.routes[k].status == app.routes[k].status
            && r.routes[k].qrCodeData == app.routes[k].qrCodeData)
      && (forall k :: 0 <= k < |app.routes| && app.routes[k].id != app.session.editingId.value ==>
            r.routes[k] == app.routes[k])
    ensures CanSave(app.session) && EditTarget(app.session).None? ==>
      && |r.routes| == |app.routes| + 1
      && r.routes[..|app.routes|] == app.routes
      && var added := r.routes[|app.routes|];
      && added.status == Normal && !added.isOffRoute
      && added.points == app.session.points && added.name == app.session.name
      && added.geometry == inputs.optimized
      && added.schedule == Some(app.session.schedule) && added.itineraryText == Some(app.session.itinerary)
      && added.id == "route-" + inputs.idStamp
      && added.qrCodeData == "meuonibus://route/" + inputs.qrStamp
      && added.companyId == CompanyFor(inputs.userCompanyId) && added.companyId != ""
      && added.companyName == inputs.companyName
      && added.incidentDescription.None? && added.currentLocation.None? && added.assignedDriverId.None?
      && r.selectedRouteId == added.id
  {
    if !CanSave(app.session) then app
    else
      var s := app.session;
      var closed := s.(isCreating := false, editingId := None, points := [], name := "");
      match EditTarget(s)
      case Some(id) =>
        app.(routes := UpdateWhere(app.routes, id, (route: BusRoute) => Reauthor(route, s, inputs.optimized)),
             session := closed)
      case None =>
        var route := NewRoute(s, inputs);
        app.(routes := app.routes + [route], selectedRouteId := route.id, session := closed)
  }

  /** The status an incident report gives a route: CLEAR restores NORMAL, TRAFFIC is kept, all else is DELAYED. */
  function StatusFor(t: IncidentType): (r: RouteStatus)
    ensures r == Normal <==> t == Clear
    ensures r == RouteStatus.Traffic <==> t == IncidentType.Traffic
    ensures r == Delayed <==> t in {Breakdown, Accident, Other}
    ensures r != Broken
  {
    match t
    case Clear => Normal
    case Traffic => RouteStatus.Traffic
    case _ => Delayed
  }

  /**
   A driver's incident report: the active route takes the status of the
   incident and the summary text verbatim; nothing else changes, and with
   no active route nothing changes at all.
   */
  function ReportIncident(app: App, t: IncidentType, summary: string): (r: App)
    ensures ActiveRoute(app).None? ==> r == app
    ensures r == app.(routes := r.routes)
    ensures |r.routes| == |app.routes|
    ensures forall k :: 0 <= k < |app.routes| && app.routes[k].id == app.selectedRouteId ==>
      r.routes[k] == app.routes[k].(status := StatusFor(t), incidentDescription := Some(summary))
    ensures forall k :: 0 <= k < |app.routes| && app.routes[k].id != app.selectedRouteId ==>
      r.routes[k] == app.routes[k]
  {
    match ActiveRoute(app)
    case None => app
    case Some(active) =>
      app.(routes := UpdateWhere(app.routes, active.id,
             (route: BusRoute) => route.(status := StatusFor(t), incidentDescription := Some(summary))))
  }

  /** The outcome of scanning a QR code. */
  datatype ScanOutcome = Matched(routeId: string) | NotFound

  datatype ScanResult = ScanResult(app: App, outcome: ScanOutcome)

  /**
   Looks the scanned payload up by exact equality with `qrCodeData`. The
   first matching route becomes the selected one; without a match the
   state is untouched and the outcome is "not found".
   */
  function ScanSuccess(app: App, data: string): (r: ScanResult)
    ensures r.outcome.NotFound? <==> forall k :: 0 <= k < |app.routes| ==> app.routes[k].qrCodeData != data
    ensures r.outcome.NotFound? ==> r.app == app
    ensures r.outcome.Matched? ==>
      exists k :: 0 <= k < |app.routes| && app.routes[k].qrCodeData == data
        && (forall j :: 0 <= j < k ==> app.routes[j].qrCodeData != data)
        && r.outcome.routeId == app.routes[k].id
        && r.app == app.(selectedRouteId := app.routes[k].id)
  {
    match FindFirst(app.routes, (route: BusRoute) => route.qrCodeData == data)
    case None => ScanResult(app, NotFound)
    case Some(k) => ScanResult(app.(selectedRouteId := app.routes[k].id), Matched(app.routes[k].id))
  }

  /** Every stored route was authored with at least two points. */
  ghost predicate RoutesWellFormed(routes: seq<BusRoute>) {
    forall k :: 0 <= k < |routes| ==> |routes[k].points| >= 2
  }

  /** Save, incident reports and QR lookups all keep every route at two points or more. */
  lemma {:induction false} WellFormedPreserved(app: App, inputs: SaveInputs, t: IncidentType, summary: string, data: string)
    requires RoutesWellFormed(app.routes)
    ensures RoutesWellFormed(SaveRoute(app, inputs).routes)
    ensures RoutesWellFormed(ReportIncident(app, t, summary).routes)
    ensures RoutesWellFormed(ScanSuccess(app, data).app.routes)
  {
    var saved := SaveRoute(app, inputs);
    if CanSave(app.session) && EditTarget(app.session).None? {
      forall k | 0 <= k < |saved.routes|
        ensures |saved.routes[k].points| >= 2
      {
        if k < |app.routes| {
          assert saved.routes[k] == saved.routes[..|app.routes|][k];
        }
      }
    }
  }

  /** A session just opened cannot be saved before two points are drawn and a name is typed. */
  lemma FreshSessionRefusesSave(app: App, inputs: SaveInputs)
    ensures SaveRoute(StartCreating(app), inputs) == StartCreating(app)
  {
  }

  /**
   Discarding and then starting a new route is the same as starting it
   straight away: nothing of the discarded drawing survives the restart.
   */
  lemma DiscardThenStart(app: App)
    ensures StartCreating(Discard(app)) == StartCreating(app)
  {
  }

  /**
   A route created by save becomes the active route, provided its id is not
   already taken: the route list is searched from the front, so an older
   route with the same id would win.
   */
  lemma {:induction false} SavedRouteIsActive(app: App, inputs: SaveInputs)
    requires CanSave(app.session) && EditTarget(app.session).None?
    requires forall k :: 0 <= k < |app.routes| ==> app.routes[k].id != "route-" + inputs.idStamp
    ensures ActiveRoute(SaveRoute(app, inputs)) == Some(NewRoute(app.session, inputs))
  {
    var route := NewRoute(app.session, inputs);
    var saved := SaveRoute(app, inputs);
    var n := |app.routes|;
    assert saved.routes == app.routes + [route] && saved.selectedRouteId == route.id;
    var active := ActiveRoute(saved);
    assert active.Some? by {
      assert saved.routes[n].id == saved.selectedRouteId;
    }
    var k :| 0 <= k < |saved.routes| && saved.routes[k] == active.value
      && forall j :: 0 <= j < k ==> saved.routes[j].id != saved.selectedRouteId;
    assert k == n;
  }

  /** A discarded session is refused by save, which then changes nothing. */
  lemma DiscardRefusesSave(app: App, inputs: SaveInputs)
    ensures SaveRoute(Discard(app), inputs) == Discard(app)
  {
  }

  /**
   The drawing walk-through: a click, an address pick, a name, and a save
   whose routing answer has three points yield a NORMAL route with the two
   authored points and the three-point geometry.
   */
  lemma DrawAndSaveScenario(app: App, stamp: string, company: string)
    ensures
      var a1 := MapClick(StartCreating(app), -23.59, -46.68);
      var a2 := AddPointFromAddress(a1, LatLng(-23.60, -46.685, None, None));
      var a3 := EditForm(a2, "Linha X", "07:00", "desc");
      var geometry := [LatLng(-23.59, -46.68, None, None), LatLng(-23.595, -46.6825, None, None), LatLng(-23.60, -46.685, None, None)];
      var saved := SaveRoute(a3, SaveInputs(Some(geometry), stamp, stamp, None, company));
      && |saved.routes| == |app.routes| + 1
      && var route := saved.routes[|app.routes|];
      && |route.points| == 2 && route.geometry.Some? && |route.geometry.value| == 3
      && route.status == Normal && IsStop(route.points[1]) && !IsStop(route.points[0])
      && saved.selectedRouteId == route.id
  {
    var a1 := MapClick(StartCreating(app), -23.59, -46.68);
    var a2 := AddPointFromAddress(a1, LatLng(-23.60, -46.685, None, None));
    var a3 := EditForm(a2, "Linha X", "07:00", "desc");
    assert |a3.session.points| == 2;
    assert CanSave(a3.session);
  }

  /** Scanning a payload no route carries reports "not found" and changes nothing. */
  lemma UnknownQrScenario(app: App)
    requires forall k :: 0 <= k < |app.routes| ==> app.routes[k].qrCodeData != "route/42"
    ensures ScanSuccess(app, "route/42") == ScanResult(app, NotFound)
  {
  }
}
