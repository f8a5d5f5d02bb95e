/**
 The vehicle motion simulator (App.tsx): while the dashboard shows a
 running route, a 4-second interval steps a position index along the
 route's path, wrapping at its end, and publishes the bus position and the
 point after it. The interval is the explicit `Tick` step here.
 */
module Simulator {
  import opened Types

  datatype View = Login | Dashboard

  /** A running simulator: the path it steps along and the index it is at. */
  datatype Sim = Sim(path: seq<LatLng>, index: nat)

  predicate Valid(s: Sim) {
    0 < |s.path| && s.index < |s.path|
  }

  /** The interval period, in milliseconds. */
  const TickMillis: nat := 4000

  /**
   Starts a simulator when the dashboard shows an active route that is
   running (or watched by a passenger) and no route is being drawn; a route
   whose path is empty starts none. A new simulator starts at index 0.
   */
  function Start(view: View, active: Option<BusRoute>, isRouteRunning: bool,
                 role: Option<UserRole>, isCreating: bool): (r: Option<Sim>)
    ensures r.Some? <==>
      && view == Dashboard && active.Some?
      && (isRouteRunning || role == Some(User)) && !isCreating
      && |Path(active.value)| > 0
    ensures r.Some? ==> Valid(r.value) && r.value.index == 0 && r.value.path == Path(active.value)
  {
    if view == Dashboard && active.Some? && (isRouteRunning || role == Some(User)) && !isCreating then
      var path := Path(active.value);
      if |path| < 1 then None else Some(Sim(path, 0))
    else None
  }

  /** What one tick publishes: the new bus position and the point the bus heads to. */
  datatype Emission = Emission(busLocation: LatLng, nextPoint: LatLng)

  datatype Step = Step(sim: Sim, emitted: Emission)

  /**
   One interval tick: the index moves one place forward, back to 0 after
   the last point, and the position at the new index and the one after it
   are published.
   */
  function Tick(s: Sim): (r: Step)
    requires Valid(s)
    ensures Valid(r.sim) && r.sim.path == s.path
    ensures r.sim.index == if s.index + 1 == |s.path| then 0 else s.index + 1
    ensures r.emitted.busLocation in s.path && r.emitted.nextPoint in s.path
    ensures r.emitted.busLocation == s.path[r.sim.index]
    ensures r.emitted.nextPoint == s.path[if r.sim.index + 1 == |s.path| then 0 else r.sim.index + 1]
  {
    var n := |s.path|;
    WrapStep(s.index + 1, n);
    var i := (s.index + 1) % n;
    WrapStep(i + 1, n);
    Step(Sim(s.path, i), Emission(s.path[i], s.path[(i + 1) % n]))
  }

  /** Stepping past the end of a path of length `n` wraps to 0; any earlier step is unchanged. */
  lemma WrapStep(a: nat, n: nat)
    requires 0 < n && a <= n
    ensures a % n == if a == n then 0 else a
  {
  }

  /** The point a tick announces as next is where the bus is after the following tick. */
  lemma NextPointIsNextPosition(s: Sim)
    requires Valid(s)
    ensures Tick(Tick(s).sim).emitted.busLocation == Tick(s).emitted.nextPoint
  {
  }

  /** `k` ticks in a row. */
  function Run(s: Sim, k: nat): (r: Sim)
    requires Valid(s)
    ensures Valid(r) && r.path == s.path
    decreases k
  {
    if k == 0 then s else Run(Tick(s).sim, k - 1)
  }

  /** Within one lap the remainder is the plain difference. */
  lemma ModOneLap(a: nat, n: nat)
    requires a < n
    ensures a % n == a && (a + n) % n == a
  {
  }

  /**
   Within one lap, the index after `k` ticks is the start index advanced by
   `k`, modulo the path length.
   */
  lemma {:induction false} RunIndex(s: Sim, k: nat)
    requires Valid(s) && k <= |s.path|
    ensures Run(s, k).index == (s.index + k) % |s.path|
    decreases k
  {
    var n := |s.path|;
    if k == 0 {
      ModOneLap(s.index, n);
    } else {
      var t := Tick(s).sim;
      RunIndex(t, k - 1);
      if s.index + 1 == n {
        ModOneLap(k - 1, n);
        assert s.index + k == (k - 1) + n;
      }
    }
  }

  /** As many ticks as the path has points bring the simulator back to where it started. */
  lemma FullLapReturns(s: Sim)
    requires Valid(s)
    ensures Run(s, |s.path|) == s
  {
    var n := |s.path|;
    RunIndex(s, n);
    ModOneLap(s.index, n);
    var r := Run(s, n);
    assert r.index == s.index && r.path == s.path;
  }

  /** Ticks compose: `a` ticks followed by `b` ticks are `a + b` ticks. */
  lemma {:induction false} RunAdd(s: Sim, a: nat, b: nat)
    requires Valid(s)
    ensures Run(Run(s, a), b) == Run(s, a + b)
    decreases a
  {
    if a > 0 {
      RunAdd(Tick(s).sim, a - 1, b);
    }
  }

  /** The simulator is periodic: any number of whole laps changes nothing. */
  lemma {:induction false} LapsReturn(s: Sim, laps: nat)
    requires Valid(s)
    ensures Run(s, laps * |s.path|) == s
    decreases laps
  {
    if laps > 0 {
      var n := |s.path|;
      assert laps * n == (laps - 1) * n + n;
      RunAdd(s, (laps - 1) * n, n);
      LapsReturn(s, laps - 1);
      FullLapReturns(s);
    }
  }

  /** The simulator `millis` milliseconds after it started: one tick per full period has fired. */
  function After(s: Sim, millis: nat): (r: Sim)
    requires Valid(s)
    ensures Valid(r) && r.path == s.path
  {
    Run(s, millis / TickMillis)
  }

  /** Between two ticks nothing moves: any time inside the k-th period shows the state after k ticks. */
  lemma BetweenTicksNothingMoves(s: Sim, k: nat, rem: nat)
    requires Valid(s) && rem < TickMillis
    ensures After(s, k * TickMillis + rem) == Run(s, k)
  {
    assert (k * TickMillis + rem) / TickMillis == k;
  }

  /** A simulated bus on an n-point path is back where it started every n periods. */
  lemma LapPeriod(s: Sim)
    requires Valid(s)
    ensures After(s, |s.path| * TickMillis) == s
  {
    BetweenTicksNothingMoves(s, |s.path|, 0);
    FullLapReturns(s);
  }

  /** On a four-point geometry from index 0: three ticks reach index 3, a fourth wraps to 0. */
  lemma FourPointScenario(route: BusRoute)
    requires route.geometry.Some? && |route.geometry.value| == 4
    ensures
      var s := Start(Dashboard, Some(route), true, Some(Driver), false);
      && s.Some?
      && Run(s.value, 3).index == 3
      && Run(s.value, 4).index == 0
  {
    var s := Start(Dashboard, Some(route), true, Some(Driver), false).value;
    RunIndex(s, 3);
    RunIndex(s, 4);
  }
}
