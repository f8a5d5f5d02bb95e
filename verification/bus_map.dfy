/**
 The map component (components/BusMap.tsx). The Leaflet map is an
 abstract record of what is on it: the base tile layers, the zoom control,
 the route line and its stop markers, the bus marker, the drawing preview,
 the click listener and the camera moves issued so far. Each effect of the
 component is a transition of that record; an effect that finds no map
 (before mounting) changes nothing.
 */
module BusMap {
  import opened Types
  import Waypoints
  import RouteEditor

  /** A base-map tile source: URL template, attribution and maximum zoom. */
  datatype TileSource = TileSource(url: string, attribution: string, maxZoom: nat)

  const CartoAttribution := "&copy; OpenStreetMap &copy; CARTO"

  const LightTiles := TileSource("https://{s}.basemaps.cartocdn.com/light_all/{z}/{x}/{y}{r}.png", CartoAttribution, 19)

  const SatelliteTiles := TileSource(
    "https://server.arcgisonline.com/ArcGIS/rest/services/World_Imagery/MapServer/tile/{z}/{y}/{x}",
    "Tiles &copy; Esri &mdash; Source: Esri, i-cubed, USDA, USGS, AEX, GeoEye, Getmapping, Aerogrid, IGN, IGP, UPR-EGP, and the GIS User Community",
    19)

  const DarkTiles := TileSource("https://{s}.basemaps.cartocdn.com/dark_all/{z}/{x}/{y}{r}.png", CartoAttribution, 19)

  /**
   The zoom control. `attached` says whether it is on the map; `built` says
   whether Leaflet has created its container, which happens on the first
   `addTo` and is not undone by `remove`.
   */
  datatype ZoomControl = ZoomControl(attached: bool, built: bool)

  /** The polyline of a saved route. */
  datatype RouteLine = RouteLine(path: seq<Coord>, color: string)

  /** A stop of a saved route, labelled with its name when it has a non-empty one. */
  datatype StopMarker = StopMarker(pos: Coord, caption: Option<string>)

  /** The bus icon. `serial` tells markers apart: a new marker takes a fresh serial. */
  datatype BusMarker = BusMarker(serial: nat, pos: Coord, heading: real, iconSize: nat)

  /** A draggable marker of the drawing preview, for entry `index` of the point list. */
  datatype PreviewMarker = PreviewMarker(index: nat, pos: Coord, isStop: bool, iconSize: nat)

  /** The dashed preview line through the drawn points and their markers. */
  datatype Preview = Preview(line: seq<Coord>, markers: seq<PreviewMarker>)

  /** The values a click listener closed over when it was registered. */
  datatype ClickListener = ClickListener(isDrawing: bool, hasHandler: bool)

  /** A camera move asked of the map. */
  datatype CameraMove =
    | SetView(center: Coord, zoom: int)
    | PanTo(center: Coord)
    | FitBounds(path: seq<Coord>, padding: nat)

  /** What is on the map. */
  datatype Surface = Surface(
    mounted: bool,
    tiles: seq<TileSource>,
    zoomControl: ZoomControl,
    routeLine: Option<RouteLine>,
    stops: seq<StopMarker>,
    bus: Option<BusMarker>,
    markersCreated: nat,
    preview: Option<Preview>,
    listener: Option<ClickListener>,
    camera: seq<CameraMove>)

  const Unmounted := Surface(false, [], ZoomControl(false, false), None, [], None, 0, None, None, [])

  /** Where the map opens when no bus position is known. */
  const DefaultCenter := Coord(-23.5505, -46.6333)

  function Coords(points: seq<LatLng>): (r: seq<Coord>)
    ensures |r| == |points|
    ensures forall i :: 0 <= i < |points| ==> r[i] == CoordOf(points[i])
  {
    seq(|points|, i requires 0 <= i < |points| => CoordOf(points[i]))
  }

  // ---------------------------------------------------------------- mount

  /**
   Creates the map once: only when the container exists and no map exists
   yet. The new map is centred on the bus (or the default centre) at zoom
   15, with a zoom control that is created but not yet on the map.
   */
  function Mount(m: Surface, hasContainer: bool, currentLocation: Option<LatLng>): (r: Surface)
    ensures !hasContainer || m.mounted ==> r == m
    ensures hasContainer && !m.mounted ==>
      && r.mounted && r.tiles == [] && r.zoomControl == ZoomControl(false, false)
      && r.routeLine.None? && r.stops == [] && r.bus.None? && r.preview.None? && r.listener.None?
      && r.camera == [SetView(if currentLocation.Some? then CoordOf(currentLocation.value) else DefaultCenter, 15)]
  {
    if !hasContainer || m.mounted then m
    else
      var center := if currentLocation.Some? then CoordOf(currentLocation.value) else DefaultCenter;
      Surface(true, [], ZoomControl(false, false), None, [], None, m.markersCreated, None, None, [SetView(center, 15)])
  }

  /** Mounting is idempotent: a second mount changes nothing, whatever position it is given. */
  lemma MountOnce(m: Surface, hasContainer: bool, first: Option<LatLng>, second: Option<LatLng>)
    ensures Mount(Mount(m, hasContainer, first), hasContainer, second) == Mount(m, hasContainer, first)
  {
  }

  // ---------------------------------------------------------------- zoom control

  /** The zoom control belongs on the map exactly when a route is shown outside navigation mode. */
  predicate ShowZoom(hasRoute: bool, isNavigating: bool) {
    hasRoute && !isNavigating
  }

  /**
   The zoom effect with the visibility test corrected to "is the control on
   the map": it adds the control only when it is absent and removes it only
   when it is present, so the control ends up on the map exactly when it
   should be.
   */
  function SyncZoom(m: Surface, hasRoute: bool, isNavigating: bool): (r: Surface)
    ensures !m.mounted ==> r == m
    ensures m.mounted ==> r.zoomControl.attached == ShowZoom(hasRoute, isNavigating)
    ensures r.zoomControl.attached == m.zoomControl.attached ==> r == m
    ensures r == m.(zoomControl := r.zoomControl)
  {
    if !m.mounted then m
    else
      var show := ShowZoom(hasRoute, isNavigating);
      if show && !m.zoomControl.attached then m.(zoomControl := ZoomControl(true, true))
      else if !show && m.zoomControl.attached then m.(zoomControl := m.zoomControl.(attached := false))
      else m
  }

  /** Running the corrected zoom effect twice with the same inputs is running it once. */
  lemma SyncZoomIdempotent(m: Surface, hasRoute: bool, isNavigating: bool)
    ensures SyncZoom(SyncZoom(m, hasRoute, isNavigating), hasRoute, isNavigating) == SyncZoom(m, hasRoute, isNavigating)
  {
  }

  /**
   The zoom effect as the component writes it: "visible" is judged by
   whether the control has a container, which stays true after the first
   removal.
   */
  function SyncZoomAsWritten(m: Surface, hasRoute: bool, isNavigating: bool): (r: Surface)
    ensures !m.mounted ==> r == m
    ensures r == m.(zoomControl := r.zoomControl)
    ensures m.mounted && m.zoomControl == ZoomControl(false, false) ==> r.zoomControl.attached == ShowZoom(hasRoute, isNavigating)
    ensures m.zoomControl.built && !m.zoomControl.attached ==> !r.zoomControl.attached
  {
    if !m.mounted then m
    else
      var show := ShowZoom(hasRoute, isNavigating);
      var visible := m.zoomControl.built;
      if show && !visible then m.(zoomControl := ZoomControl(true, true))
      else if !show && visible then m.(zoomControl := m.zoomControl.(attached := false))
      else m
  }

  /**
   While the control is either built and on the map or not built at all,
   the written effect and the corrected one agree; they differ only on a
   control that was built and then taken off the map.
   */
  lemma AsWrittenAgreesInStep(m: Surface, hasRoute: bool, isNavigating: bool)
    requires m.zoomControl.built == m.zoomControl.attached
    ensures SyncZoomAsWritten(m, hasRoute, isNavigating) == SyncZoom(m, hasRoute, isNavigating)
  {
  }

  /**
   With a route shown, entering navigation mode and leaving it again leaves
   the zoom control off the map for good under the written test, while the
   corrected effect puts it back.
   */
  lemma ZoomControlNotRestored(m: Surface)
    requires m.mounted && m.zoomControl == ZoomControl(false, false)
    ensures
      var s1 := SyncZoomAsWritten(m, true, false);
      var s2 := SyncZoomAsWritten(s1, true, true);
      var s3 := SyncZoomAsWritten(s2, true, false);
      s1.zoomControl.attached && !s2.zoomControl.attached
      && ShowZoom(true, false) && !s3.zoomControl.attached
    ensures
      var c3 := SyncZoom(SyncZoom(SyncZoom(m, true, false), true, true), true, false);
      c3.zoomControl.attached
  {
  }

  // ---------------------------------------------------------------- tiles

  /** The tile source for a style; the default branch (and an absent style) is dark. */
  function TileFor(style: Option<MapStyle>): (r: TileSource)
    ensures r == LightTiles <==> style == Some(Light)
    ensures r == SatelliteTiles <==> style == Some(Satellite)
    ensures r == DarkTiles <==> style !in {Some(Light), Some(Satellite)}
  {
    match style
    case Some(Light) => LightTiles
    case Some(Satellite) => SatelliteTiles
    case _ => DarkTiles
  }

  /**
   The style effect: the base layer the component last added (the last one
   on the map) is removed before the layer for the new style is added.
   Nothing but the base layers changes.
   */
  function SetTileStyle(m: Surface, style: Option<MapStyle>): (r: Surface)
    ensures !m.mounted ==> r == m
    ensures m.mounted ==> |r.tiles| > 0 && r.tiles[|r.tiles| - 1] == TileFor(style)
    ensures m.mounted && |m.tiles| <= 1 ==> r.tiles == [TileFor(style)]
    ensures m.mounted && |m.tiles| > 0 ==> r.tiles[..|r.tiles| - 1] == m.tiles[..|m.tiles| - 1]
    ensures r == m.(tiles := r.tiles)
  {
    if !m.mounted then m
    else
      var kept := if |m.tiles| > 0 then m.tiles[..|m.tiles| - 1] else [];
      m.(tiles := kept + [TileFor(style)])
  }

  /** A run of style changes. */
  function ApplyStyles(m: Surface, styles: seq<Option<MapStyle>>): Surface
    decreases |styles|
  {
    if |styles| == 0 then m else ApplyStyles(SetTileStyle(m, styles[0]), styles[1..])
  }

  /**
   From a freshly mounted map (or any map with at most one base layer),
   any run of style changes leaves exactly one base layer, the one for the
   last style, and leaves every other layer alone.
   */
  lemma {:induction false} OneBaseLayer(m: Surface, styles: seq<Option<MapStyle>>)
    requires m.mounted && |m.tiles| <= 1 && |styles| > 0
    ensures ApplyStyles(m, styles).tiles == [TileFor(styles[|styles| - 1])]
    ensures ApplyStyles(m, styles) == m.(tiles := ApplyStyles(m, styles).tiles)
    decreases |styles|
  {
    var next := SetTileStyle(m, styles[0]);
    assert next.mounted && next.tiles == [TileFor(styles[0])];
    assert next == m.(tiles := next.tiles);
    assert ApplyStyles(m, styles) == ApplyStyles(next, styles[1..]);
    if |styles| == 1 {
      assert ApplyStyles(next, styles[1..]) == next;
    } else {
      OneBaseLayer(next, styles[1..]);
      assert styles[1..][|styles[1..]| - 1] == styles[|styles| - 1];
    }
  }

  // ---------------------------------------------------------------- clicks

  /** The click effect: the previous listener is taken off and one closing over the current values is put on. */
  function SyncClickHandler(m: Surface, isDrawing: bool, hasHandler: bool): (r: Surface)
    ensures !m.mounted ==> r == m
    ensures m.mounted ==> r.listener == Some(ClickListener(isDrawing, hasHandler))
    ensures r == m.(listener := r.listener)
  {
    if !m.mounted then m else m.(listener := Some(ClickListener(isDrawing, hasHandler)))
  }

  /** A click on the map: its coordinates reach the handler only in drawing mode. */
  function Click(m: Surface, lat: real, lng: real): (r: Option<Coord>)
    ensures r.Some? <==> m.listener.Some? && m.listener.value.isDrawing && m.listener.value.hasHandler
    ensures r.Some? ==> r.value == Coord(lat, lng)
  {
    match m.listener
    case Some(ClickListener(drawing, handler)) => if drawing && handler then Some(Coord(lat, lng)) else None
    case None => None
  }

  /**
   A click reaches the dashboard's point list, as a plain point at its end,
   exactly when the listener was registered in drawing mode; otherwise the
   dashboard state is unchanged.
   */
  function ClickOnMap(m: Surface, app: RouteEditor.App, lat: real, lng: real): (r: RouteEditor.App)
    ensures Click(m, lat, lng).None? ==> r == app
    ensures Click(m, lat, lng).Some? ==> r == RouteEditor.MapClick(app, lat, lng)
  {
    match Click(m, lat, lng)
    case Some(c) => RouteEditor.MapClick(app, c.lat, c.lng)
    case None => app
  }

  /** Outside drawing mode no click changes the points being drawn. */
  lemma NoDrawingNoPoints(m: Surface, app: RouteEditor.App, lat: real, lng: real)
    requires m.mounted
    ensures ClickOnMap(SyncClickHandler(m, false, true), app, lat, lng) == app
    ensures |ClickOnMap(SyncClickHandler(m, true, true), app, lat, lng).session.points| == |app.session.points| + 1
  {
  }

  // ---------------------------------------------------------------- route and stops

  const Amber := "#f59e0b"
  const Red := "#ef4444"
  const Blue := "#0070f3"

  /** The route line colour: amber when delayed, else red when off route, else blue. */
  function RouteColor(route: BusRoute): (r: string)
    ensures r == Amber <==> route.status == Delayed
    ensures r == Red <==> route.status != Delayed && route.isOffRoute
    ensures r == Blue <==> route.status != Delayed && !route.isOffRoute
  {
    if route.status == Delayed then Amber else if route.isOffRoute then Red else Blue
  }

  /** A TRAFFIC report does not turn the active route's line amber. */
  lemma TrafficReportNotAmber(app: RouteEditor.App, summary: string, k: nat)
    requires k < |app.routes| && app.routes[k].id == app.selectedRouteId
    ensures RouteColor(RouteEditor.ReportIncident(app, IncidentType.Traffic, summary).routes[k]) != Amber
  {
  }

  function StopMarkerOf(p: LatLng): StopMarker {
    StopMarker(CoordOf(p), if p.stopName.Some? && p.stopName.value != "" then p.stopName else None)
  }

  /** One marker per waypoint whose stop flag is set, in the order of the waypoints. */
  function StopMarkers(points: seq<LatLng>): (r: seq<StopMarker>)
    ensures |r| <= |points|
    ensures forall s :: s in r ==> exists p :: p in points && IsStop(p) && s == StopMarkerOf(p)
    ensures (forall i :: 0 <= i < |points| ==> !IsStop(points[i])) ==> r == []
  {
    if |points| == 0 then []
    else
      var rest := StopMarkers(points[1..]);
      assert forall p :: p in points[1..] ==> p in points;
      if IsStop(points[0]) then [StopMarkerOf(points[0])] + rest else rest
  }

  /**
   Stop markers of a concatenation are the stop markers of each part, in
   order; with the single-point case this fixes the marker list completely.
   */
  lemma {:induction false} StopMarkersAppend(a: seq<LatLng>, b: seq<LatLng>)
    ensures StopMarkers(a + b) == StopMarkers(a) + StopMarkers(b)
    decreases |a|
  {
    if |a| == 0 {
      assert a + b == b;
    } else {
      assert (a + b)[1..] == a[1..] + b;
      StopMarkersAppend(a[1..], b);
    }
  }

  /** A single waypoint gives one marker when it is a stop and none otherwise. */
  lemma StopMarkersSingle(p: LatLng)
    ensures StopMarkers([p]) == if IsStop(p) then [StopMarkerOf(p)] else []
  {
  }

  /**
   A map click adds no stop marker, and an address pick adds exactly one,
   for the picked location, after the existing ones.
   */
  lemma {:induction false} AppendedPointMarkers(points: seq<LatLng>, lat: real, lng: real, location: LatLng)
    ensures StopMarkers(Waypoints.AppendClicked(points, lat, lng)) == StopMarkers(points)
    ensures StopMarkers(Waypoints.AppendStop(points, location))
         == StopMarkers(points) + [StopMarkerOf(location.(isStop := Some(true)))]
  {
    var clicked := LatLng(lat, lng, Some(false), None);
    StopMarkersAppend(points, [clicked]);
    StopMarkersSingle(clicked);
    var stop := location.(isStop := Some(true));
    StopMarkersAppend(points, [stop]);
    StopMarkersSingle(stop);
  }

  /** When every waypoint is a stop there is one marker per waypoint, position for position. */
  lemma {:induction false} AllStopsAllMarkers(points: seq<LatLng>)
    requires forall i :: 0 <= i < |points| ==> IsStop(points[i])
    ensures |StopMarkers(points)| == |points|
    ensures forall i :: 0 <= i < |points| ==> StopMarkers(points)[i] == StopMarkerOf(points[i])
    decreases |points|
  {
    if |points| > 0 {
      AllStopsAllMarkers(points[1..]);
    }
  }

  /** The map should show a saved route: one is given and no route is being drawn. */
  predicate ShowsRoute(route: Option<BusRoute>, isDrawing: bool) {
    route.Some? && !isDrawing
  }

  /**
   The route effect. The old line and stop markers always go first; then,
   when a route is shown, its line (geometry if defined, else waypoints) is
   drawn in its colour with one marker per stop, and the camera is fitted
   to the line when no bus position is known and the map is not in
   navigation mode.
   */
  function SyncRoute(m: Surface, route: Option<BusRoute>, isDrawing: bool,
                     currentLocation: Option<LatLng>, isNavigating: bool): (r: Surface)
    ensures !m.mounted ==> r == m
    ensures m.mounted ==> (r.routeLine.Some? <==> ShowsRoute(route, isDrawing))
    ensures m.mounted && !ShowsRoute(route, isDrawing) ==> r.stops == [] && r.camera == m.camera
    ensures m.mounted && ShowsRoute(route, isDrawing) ==>
      && r.routeLine.value.path == Coords(Path(route.value))
      && r.routeLine.value.color == RouteColor(route.value)
      && r.stops == StopMarkers(route.value.points)
    ensures m.mounted && ShowsRoute(route, isDrawing) ==>
      r.camera == m.camera +
        (if currentLocation.None? && |Path(route.value)| > 0 && !isNavigating
         then [FitBounds(Coords(Path(route.value)), 40)] else [])
    ensures r == m.(routeLine := r.routeLine, stops := r.stops, camera := r.camera)
  {
    if !m.mounted then m
    else
      var cleared := m.(routeLine := None, stops := []);
      match route
      case None => cleared
      case Some(rt) =>
        if isDrawing then cleared
        else
          var path := Coords(Path(rt));
          var fit := if currentLocation.None? && |path| > 0 && !isNavigating then [FitBounds(path, 40)] else [];
          cleared.(routeLine := Some(RouteLine(path, RouteColor(rt))),
                   stops := StopMarkers(rt.points),
                   camera := m.camera + fit)
  }

  /** No stale layers: the route and stop layers after the effect do not depend on what was drawn before. */
  lemma SyncRouteForgetsPrevious(m1: Surface, m2: Surface, route: Option<BusRoute>, isDrawing: bool,
                                 loc: Option<LatLng>, isNavigating: bool)
    requires m1.mounted && m2.mounted
    ensures SyncRoute(m1, route, isDrawing, loc, isNavigating).routeLine == SyncRoute(m2, route, isDrawing, loc, isNavigating).routeLine
    ensures SyncRoute(m1, route, isDrawing, loc, isNavigating).stops == SyncRoute(m2, route, isDrawing, loc, isNavigating).stops
  {
  }

  // ---------------------------------------------------------------- bus marker and camera

  /** Icon edge in pixels: large in navigation mode. */
  function BusIconSize(isNavigating: bool): nat {
    if isNavigating then 80 else 40
  }

  /**
   The bus effect. With a position and outside drawing mode the bus marker
   is created if absent and otherwise moved and re-oriented in place; its
   heading comes from `bearing` towards the next point, or is 0 without
   one; the camera recentres at zoom 18 in navigation mode and otherwise
   pans without a zoom change. In every other case an existing marker is
   removed. The bearing formula is a parameter.
   */
  function SyncBusMarker(m: Surface, currentLocation: Option<LatLng>, nextPoint: Option<LatLng>,
                         isDrawing: bool, isNavigating: bool, bearing: (Coord, Coord) -> real): (r: Surface)
    ensures !m.mounted ==> r == m
    ensures m.mounted ==> (r.bus.Some? <==> currentLocation.Some? && !isDrawing)
    ensures r.bus.Some? && m.mounted ==>
      && r.bus.value.pos == CoordOf(currentLocation.value)
      && r.bus.value.iconSize == BusIconSize(isNavigating)
      && r.bus.value.heading == (if nextPoint.None? then 0.0 else bearing(CoordOf(currentLocation.value), CoordOf(nextPoint.value)))
      && r.camera == m.camera + [if isNavigating then SetView(CoordOf(currentLocation.value), 18) else PanTo(CoordOf(currentLocation.value))]
    ensures r.bus.Some? && m.bus.Some? ==> r.bus.value.serial == m.bus.value.serial && r.markersCreated == m.markersCreated
    ensures r.bus.Some? && m.bus.None? ==> r.bus.value.serial == m.markersCreated && r.markersCreated == m.markersCreated + 1
    ensures r.bus.None? ==> r.camera == m.camera && r.markersCreated == m.markersCreated
    ensures r == m.(bus := r.bus, markersCreated := r.markersCreated, camera := r.camera)
  {
    if !m.mounted then m
    else
      match currentLocation
      case Some(loc) =>
        if isDrawing then m.(bus := None)
        else
          var pos := CoordOf(loc);
          var heading := if nextPoint.Some? then bearing(pos, CoordOf(nextPoint.value)) else 0.0;
          var size := BusIconSize(isNavigating);
          var move := if isNavigating then SetView(pos, 18) else PanTo(pos);
          (match m.bus
           case None =>
             m.(bus := Some(BusMarker(m.markersCreated, pos, heading, size)),
                markersCreated := m.markersCreated + 1, camera := m.camera + [move])
           case Some(marker) =>
             m.(bus := Some(marker.(pos := pos, heading := heading, iconSize := size)), camera := m.camera + [move]))
      case None => m.(bus := None)
  }

  /** The simulator's ticks fed to the bus effect one after another (positions with their next points). */
  function Follow(m: Surface, ticks: seq<(LatLng, Option<LatLng>)>, isNavigating: bool,
                  bearing: (Coord, Coord) -> real): Surface
    decreases |ticks|
  {
    if |ticks| == 0 then m
    else Follow(SyncBusMarker(m, Some(ticks[0].0), ticks[0].1, false, isNavigating, bearing), ticks[1..], isNavigating, bearing)
  }

  /**
   However many positions arrive, the bus marker is created at most once
   and then only moved: it keeps its serial, and it ends at the last
   position.
   */
  lemma {:induction false} MarkerNeverRecreated(m: Surface, ticks: seq<(LatLng, Option<LatLng>)>,
                                                 isNavigating: bool, bearing: (Coord, Coord) -> real)
    requires m.mounted && |ticks| > 0
    ensures var r := Follow(m, ticks, isNavigating, bearing);
      && r.bus.Some?
      && r.bus.value.pos == CoordOf(ticks[|ticks| - 1].0)
      && r.markersCreated == m.markersCreated + (if m.bus.None? then 1 else 0)
      && (m.bus.Some? ==> r.bus.value.serial == m.bus.value.serial)
      && (m.bus.None? ==> r.bus.value.serial == m.markersCreated)
    decreases |ticks|
  {
    var next := SyncBusMarker(m, Some(ticks[0].0), ticks[0].1, false, isNavigating, bearing);
    if |ticks| > 1 {
      MarkerNeverRecreated(next, ticks[1..], isNavigating, bearing);
      assert ticks[1..][|ticks[1..]| - 1] == ticks[|ticks| - 1];
    }
  }

  // ---------------------------------------------------------------- drawing preview

  /** The preview of a point list: the line through the points and one draggable marker per point. */
  function BuildPreview(points: seq<LatLng>): (r: Preview)
    ensures r.line == Coords(points)
    ensures |r.markers| == |points|
    ensures forall i :: 0 <= i < |points| ==>
      r.markers[i] == PreviewMarker(i, CoordOf(points[i]), IsStop(points[i]), if IsStop(points[i]) then 24 else 14)
  {
    Preview(Coords(points),
            seq(|points|, i requires 0 <= i < |points| =>
              PreviewMarker(i, CoordOf(points[i]), IsStop(points[i]), if IsStop(points[i]) then 24 else 14)))
  }

  /**
   The preview effect: the previous preview always goes; a new one is built
   only in drawing mode with at least one point.
   */
  function SyncPreview(m: Surface, isDrawing: bool, points: seq<LatLng>): (r: Surface)
    ensures !m.mounted ==> r == m
    ensures m.mounted ==> (r.preview.Some? <==> isDrawing && |points| > 0)
    ensures r.preview.Some? && m.mounted ==> r.preview.value == BuildPreview(points)
    ensures r == m.(preview := r.preview)
  {
    if !m.mounted then m
    else if isDrawing && |points| > 0 then m.(preview := Some(BuildPreview(points)))
    else m.(preview := None)
  }

  /**
   The drag-end handler of a preview marker: the point list the preview was
   built from, with only that marker's entry moved to the drop position.
   */
  function DragEnd(points: seq<LatLng>, marker: PreviewMarker, lat: real, lng: real): (r: seq<LatLng>)
    requires marker.index < |points|
    ensures Waypoints.OthersUnchanged(points, r, marker.index)
    ensures CoordOf(r[marker.index]) == Coord(lat, lng)
    ensures r[marker.index].isStop == points[marker.index].isStop
    ensures r[marker.index].stopName == points[marker.index].stopName
  {
    Waypoints.MoveTo(points, marker.index, lat, lng)
  }

  /**
   Dragging any marker of the current preview and reporting the result back
   changes the drawn list at that marker's entry only, coordinates only.
   */
  lemma PreviewDragPatchesOnePoint(m: Surface, app: RouteEditor.App, j: nat, lat: real, lng: real)
    requires m.mounted && app.session.isCreating
    requires j < |app.session.points|
    ensures
      var shown := SyncPreview(m, true, app.session.points).preview.value;
      var marker := shown.markers[j];
      && marker.index == j
      && RouteEditor.WithPoints(app, DragEnd(app.session.points, marker, lat, lng)) == RouteEditor.MovePoint(app, j, lat, lng)
  {
  }
}
