/**
 How the simulator meets the route list (App.tsx): the simulator effect
 starts on the active route, which drawing and saving change.
 */
module Tracking {
  import opened Types
  import RouteEditor
  import Simulator

  /** Opening a drawing session stops the simulator, whatever route is selected. */
  lemma DrawingStopsSimulator(app: RouteEditor.App, isRouteRunning: bool, role: Option<UserRole>)
    ensures Simulator.Start(Simulator.Dashboard, RouteEditor.ActiveRoute(app), isRouteRunning, role,
                            RouteEditor.StartCreating(app).session.isCreating).None?
  {
  }

  /**
   A route just created by save becomes the active route (its id being
   fresh). When the route is running or a passenger is watching, the
   simulator runs on it from index 0: along the waypoints when the routing
   service gave no geometry, along the geometry otherwise, and not at all
   when that geometry is empty. Otherwise no simulator starts; a company
   user, the only one who draws routes, starts none by saving.
   */
  lemma {:induction false} SavedRouteStarts(app: RouteEditor.App, inputs: RouteEditor.SaveInputs,
                                            isRouteRunning: bool, role: Option<UserRole>)
    requires RouteEditor.CanSave(app.session) && RouteEditor.EditTarget(app.session).None?
    requires forall k :: 0 <= k < |app.routes| ==> app.routes[k].id != "route-" + inputs.idStamp
    ensures
      var saved := RouteEditor.SaveRoute(app, inputs);
      var s := Simulator.Start(Simulator.Dashboard, RouteEditor.ActiveRoute(saved), isRouteRunning, role, saved.session.isCreating);
      && RouteEditor.ActiveRoute(saved) == Some(saved.routes[|app.routes|])
      && (!(isRouteRunning || role == Some(User)) ==> s.None?)
      && ((isRouteRunning || role == Some(User)) && inputs.optimized.None? ==> s.Some? && s.value.path == app.session.points && s.value.index == 0)
      && ((isRouteRunning || role == Some(User)) && inputs.optimized.Some? ==> (s.Some? <==> |inputs.optimized.value| > 0))
      && (s.Some? ==> s.value.path == Path(saved.routes[|app.routes|]) && s.value.index == 0)
  {
    var saved := RouteEditor.SaveRoute(app, inputs);
    RouteEditor.SavedRouteIsActive(app, inputs);
    assert saved.routes[|app.routes|] == RouteEditor.NewRoute(app.session, inputs);
  }
}
