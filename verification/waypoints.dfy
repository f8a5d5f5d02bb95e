/**
 Index-addressed edits of the waypoint list of a route being drawn: the
 appends made by map clicks and address picks, the stop toggle, the stop
 rename, the removal of one entry and the drag that moves one entry.
 Each edit touches at most the one index it is given.
 */
module Waypoints {
  import opened Types

  /** Every index other than `i` holds the same waypoint in both lists. */
  ghost predicate OthersUnchanged(a: seq<LatLng>, b: seq<LatLng>, i: nat) {
    |a| == |b| && forall j :: 0 <= j < |a| && j != i ==> a[j] == b[j]
  }

  /** A map click appends a plain (non-stop) waypoint at the end. */
  function AppendClicked(points: seq<LatLng>, lat: real, lng: real): (r: seq<LatLng>)
    ensures |r| == |points| + 1 && r[..|points|] == points
    ensures CoordOf(r[|points|]) == Coord(lat, lng) && !IsStop(r[|points|])
    ensures r[|points|].isStop == Some(false) && r[|points|].stopName.None?
  {
    points + [LatLng(lat, lng, Some(false), None)]
  }

  /** An address pick appends the resolved location at the end, marked as a stop. */
  function AppendStop(points: seq<LatLng>, location: LatLng): (r: seq<LatLng>)
    ensures |r| == |points| + 1 && r[..|points|] == points
    ensures CoordOf(r[|points|]) == CoordOf(location) && IsStop(r[|points|])
    ensures r[|points|].stopName == location.stopName
  {
    points + [location.(isStop := Some(true))]
  }

  /** Flips the stop flag at `i`; an absent flag counts as false and becomes true. */
  function ToggleStop(points: seq<LatLng>, i: nat): (r: seq<LatLng>)
    requires i < |points|
    ensures OthersUnchanged(points, r, i)
    ensures IsStop(r[i]) <==> !IsStop(points[i])
    ensures r[i].isStop.Some?
    ensures CoordOf(r[i]) == CoordOf(points[i]) && r[i].stopName == points[i].stopName
  {
    points[i := points[i].(isStop := Some(!IsStop(points[i])))]
  }

  /**
   Toggling twice restores every stop flag; it restores the list itself
   unless the flag at `i` was absent, which the first toggle makes explicit.
   */
  lemma ToggleTwice(points: seq<LatLng>, i: nat)
    requires i < |points|
    ensures |ToggleStop(ToggleStop(points, i), i)| == |points|
    ensures forall j :: 0 <= j < |points| ==>
      IsStop(ToggleStop(ToggleStop(points, i), i)[j]) == IsStop(points[j])
    ensures points[i].isStop.Some? ==> ToggleStop(ToggleStop(points, i), i) == points
  {
    var once := ToggleStop(points, i);
    var twice := ToggleStop(once, i);
    assert IsStop(twice[i]) == IsStop(points[i]);
    if points[i].isStop.Some? {
      assert IsStop(points[i]) == points[i].isStop.value;
      assert twice[i] == points[i].(isStop := Some(IsStop(points[i])));
      assert forall j :: 0 <= j < |points| ==> twice[j] == points[j];
    }
  }

  /** Sets the stop name at `i`, whether or not that entry is a stop. */
  function RenameStop(points: seq<LatLng>, i: nat, name: string): (r: seq<LatLng>)
    requires i < |points|
    ensures OthersUnchanged(points, r, i)
    ensures r[i].stopName == Some(name)
    ensures CoordOf(r[i]) == CoordOf(points[i]) && r[i].isStop == points[i].isStop
  {
    points[i := points[i].(stopName := Some(name))]
  }

  /** The last rename of an entry wins and renames never change which entries are stops. */
  lemma RenameLastWins(points: seq<LatLng>, i: nat, first: string, second: string)
    requires i < |points|
    ensures RenameStop(RenameStop(points, i, first), i, second) == RenameStop(points, i, second)
    ensures forall j :: 0 <= j < |points| ==> IsStop(RenameStop(points, i, first)[j]) == IsStop(points[j])
  {
  }

  /**
   Keeps every entry whose position differs from `index`, in order, as a
   filter on positions does. An index outside the list keeps everything.
   */
  function RemoveAt(points: seq<LatLng>, index: int): (r: seq<LatLng>)
    ensures 0 <= index < |points| ==> r == points[..index] + points[index + 1..]
    ensures !(0 <= index < |points|) ==> r == points
    decreases |points|
  {
    if |points| == 0 then []
    else
      var rest := RemoveAt(points[1..], index - 1);
      if index == 0 then rest
      else
        assert 0 < index < |points| ==>
          points[..index] + points[index + 1..] == [points[0]] + (points[1..][..index - 1] + points[1..][index..]);
        [points[0]] + rest
  }

  /** Removing exactly one entry shortens the list by one and keeps the others in order. */
  lemma RemoveAtShifts(points: seq<LatLng>, index: nat)
    requires index < |points|
    ensures |RemoveAt(points, index)| == |points| - 1
    ensures forall j :: 0 <= j < index ==> RemoveAt(points, index)[j] == points[j]
    ensures forall j :: index <= j < |points| - 1 ==> RemoveAt(points, index)[j] == points[j + 1]
  {
  }

  /** Removing the entry just appended by a click gives back the list before the click. */
  lemma RemoveUndoesAppend(points: seq<LatLng>, lat: real, lng: real)
    ensures RemoveAt(AppendClicked(points, lat, lng), |points|) == points
  {
    var appended := AppendClicked(points, lat, lng);
    assert appended[..|points|] == points;
  }

  /**
   The drag-end patch of a preview marker: entry `i` takes the dropped
   coordinates and keeps its stop flag and name.
   */
  function MoveTo(points: seq<LatLng>, i: nat, lat: real, lng: real): (r: seq<LatLng>)
    requires i < |points|
    ensures OthersUnchanged(points, r, i)
    ensures CoordOf(r[i]) == Coord(lat, lng)
    ensures r[i].isStop == points[i].isStop && r[i].stopName == points[i].stopName
  {
    points[i := points[i].(lat := lat, lng := lng)]
  }

  /** Dragging a marker back to where it was restores the list. */
  lemma MoveBack(points: seq<LatLng>, i: nat, lat: real, lng: real)
    requires i < |points|
    ensures MoveTo(MoveTo(points, i, lat, lng), i, points[i].lat, points[i].lng) == points
  {
    var back := MoveTo(MoveTo(points, i, lat, lng), i, points[i].lat, points[i].lng);
    assert back[i] == points[i];
  }
}
