/**
 The enumerations and records the dashboard is built on (types.ts): user
 roles, tile styles, waypoints, bus routes and incident types. The string
 unions of the source become datatypes; `Name`/`Parse` pairs record which
 strings each union admits.
 */
module Types {

  /** An optional value: the `?:` fields and `| undefined` values of the source. */
  datatype Option<+T> = None | Some(value: T)

  /** Who is logged in. */
  datatype UserRole = Company | Driver | User

  function RoleName(role: UserRole): string {
    match role
    case Company => "COMPANY"
    case Driver => "DRIVER"
    case User => "USER"
  }

  /** The enum's values are exactly the three role strings. */
  function ParseRole(s: string): (r: Option<UserRole>)
    ensures r.Some? <==> s in {"COMPANY", "DRIVER", "USER"}
    ensures r.Some? ==> RoleName(r.value) == s
  {
    if s == "COMPANY" then Some(Company)
    else if s == "DRIVER" then Some(Driver)
    else if s == "USER" then Some(User)
    else None
  }

  /** The base-map look chosen by the user. */
  datatype MapStyle = Light | Dark | Satellite

  function MapStyleName(style: MapStyle): string {
    match style
    case Light => "light"
    case Dark => "dark"
    case Satellite => "satellite"
  }

  /** A map style is exactly one of 'light', 'dark' and 'satellite'. */
  function ParseMapStyle(s: string): (r: Option<MapStyle>)
    ensures r.Some? <==> s in {"light", "dark", "satellite"}
    ensures r.Some? ==> MapStyleName(r.value) == s
  {
    if s == "light" then Some(Light)
    else if s == "dark" then Some(Dark)
    else if s == "satellite" then Some(Satellite)
    else None
  }

  /** The operational status shown for a route. */
  datatype RouteStatus = Normal | Delayed | Broken | Traffic

  function StatusName(status: RouteStatus): string {
    match status
    case Normal => "NORMAL"
    case Delayed => "DELAYED"
    case Broken => "BROKEN"
    case Traffic => "TRAFFIC"
  }

  /** A route status is exactly one of the four status strings. */
  function ParseStatus(s: string): (r: Option<RouteStatus>)
    ensures r.Some? <==> s in {"NORMAL", "DELAYED", "BROKEN", "TRAFFIC"}
    ensures r.Some? ==> StatusName(r.value) == s
  {
    if s == "NORMAL" then Some(Normal)
    else if s == "DELAYED" then Some(Delayed)
    else if s == "BROKEN" then Some(Broken)
    else if s == "TRAFFIC" then Some(RouteStatus.Traffic)
    else None
  }

  /** What a driver can report from the road. */
  datatype IncidentType = Breakdown | Traffic | Accident | Other | Clear

  function IncidentName(t: IncidentType): string {
    match t
    case Breakdown => "BREAKDOWN"
    case Traffic => "TRAFFIC"
    case Accident => "ACCIDENT"
    case Other => "OTHER"
    case Clear => "CLEAR"
  }

  /** An incident type is exactly one of the five incident strings. */
  function ParseIncident(s: string): (r: Option<IncidentType>)
    ensures r.Some? <==> s in {"BREAKDOWN", "TRAFFIC", "ACCIDENT", "OTHER", "CLEAR"}
    ensures r.Some? ==> IncidentName(r.value) == s
  {
    if s == "BREAKDOWN" then Some(Breakdown)
    else if s == "TRAFFIC" then Some(IncidentType.Traffic)
    else if s == "ACCIDENT" then Some(Accident)
    else if s == "OTHER" then Some(Other)
    else if s == "CLEAR" then Some(Clear)
    else None
  }

  /** Printing then reading back any enumeration value gives the value itself. */
  lemma NamesRoundTrip(role: UserRole, style: MapStyle, status: RouteStatus, t: IncidentType)
    ensures ParseRole(RoleName(role)) == Some(role)
    ensures ParseMapStyle(MapStyleName(style)) == Some(style)
    ensures ParseStatus(StatusName(status)) == Some(status)
    ensures ParseIncident(IncidentName(t)) == Some(t)
  {
  }

  /**
   A coordinate with the optional stop annotations of a drawn route. Only
   `lat` and `lng` are always present.
   */
  datatype LatLng = LatLng(lat: real, lng: real, isStop: Option<bool>, stopName: Option<string>)

  /** The truthiness of the optional `isStop` flag: an absent flag reads as false. */
  predicate IsStop(p: LatLng) {
    p.isStop == Some(true)
  }

  /** A bare coordinate pair, as handed to the map surface. */
  datatype Coord = Coord(lat: real, lng: real)

  function CoordOf(p: LatLng): Coord {
    Coord(p.lat, p.lng)
  }

  /**
   A bus route. `points` are the authored waypoints; `geometry`, when
   present, is the dense path returned by the routing service.
   */
  datatype BusRoute = BusRoute(
    id: string,
    name: string,
    companyId: string,
    companyName: string,
    points: seq<LatLng>,
    geometry: Option<seq<LatLng>>,
    status: RouteStatus,
    incidentDescription: Option<string>,
    currentLocation: Option<LatLng>,
    qrCodeData: string,
    isOffRoute: bool,
    assignedDriverId: Option<string>,
    schedule: Option<string>,
    itineraryText: Option<string>)

  /**
   The path a vehicle follows and the route line is drawn along: the
   geometry whenever it is defined, even when it is empty, and the
   waypoints otherwise (the `geometry || points` of the source, where an
   empty array is truthy).
   */
  function Path(route: BusRoute): seq<LatLng> {
    match route.geometry
    case Some(g) => g
    case None => route.points
  }
}
