/**
 * The route-replay marker of the map screen: pressing it starts a
 * once-a-second walk along the route; each step moves the marker to the next
 * point and extends the drawn polyline by that point. This variant also has a
 * reset that restores the initial state.
 */
module MapSimulatedMarker {
  import opened Wrappers

  /** Which of the two icons the marker shows. */
  datatype MarkerIcon = InitialIcon | MovingIcon

  /** `routeData[i]`: the point, or `undefined` past the end. */
  function At<P>(route: seq<P>, i: int): (r: Option<P>)
    ensures r.Some? <==> 0 <= i < |route|
    ensures r.Some? ==> r.value == route[i]
  {
    if 0 <= i < |route| then Some(route[i]) else None
  }

  class SimulatedMarker<P> {
    const route: seq<P>
    var markerPosition: Option<P>
    var polylineCoordinates: seq<Option<P>>
    var currentIndex: nat
    var isMoving: bool
    var markerIcon: MarkerIcon

    /** The replay invariant: the polyline is the route up to and including the
        current point, the marker stands on the current point, and the index
        never leaves the route. */
    ghost predicate Valid()
      reads this
    {
      && |polylineCoordinates| == currentIndex + 1
      && (forall k :: 0 <= k < |polylineCoordinates| ==> polylineCoordinates[k] == At(route, k))
      && markerPosition == At(route, currentIndex)
      && (currentIndex < |route| || currentIndex == 0)
    }

    /** The initial state: first point, a one-point polyline, stopped. */
    ghost predicate AtStart()
      reads this
    {
      && markerPosition == At(route, 0)
      && polylineCoordinates == [At(route, 0)]
      && currentIndex == 0
      && !isMoving
      && markerIcon == InitialIcon
    }

    /** The effect keeps a one-second interval only while moving and not yet at
        the last point. */
    predicate TickScheduled()
      reads this
    {
      isMoving && currentIndex < |route| - 1
    }

    constructor (routeData: seq<P>)
      ensures route == routeData
      ensures AtStart() && Valid()
    {
      route := routeData;
      markerPosition := At(routeData, 0);
      polylineCoordinates := [At(routeData, 0)];
      currentIndex := 0;
      isMoving := false;
      markerIcon := InitialIcon;
    }

    /** `handleMarkerPress`: a stopped marker starts moving and takes the moving
        icon; a moving one ignores the press. */
    method HandleMarkerPress()
      requires Valid()
      modifies this
      ensures Valid()
      ensures !old(isMoving) ==> isMoving && markerIcon == MovingIcon
      ensures old(isMoving) ==> markerIcon == old(markerIcon) && isMoving
      ensures markerPosition == old(markerPosition) && polylineCoordinates == old(polylineCoordinates)
      ensures currentIndex == old(currentIndex)
    {
      if !isMoving {
        isMoving := true;
        markerIcon := MovingIcon;
      }
    }

    /** One second on the replay clock. The updater's "route complete" branch
        (which would call `resetMarker`) cannot be reached: no interval is kept
        once the last point is reached, so the marker simply stays there. */
    method Tick()
      requires Valid()
      modifies this
      ensures Valid()
      ensures old(TickScheduled()) ==>
                && currentIndex == old(currentIndex) + 1
                && markerPosition == Some(route[currentIndex])
                && polylineCoordinates == old(polylineCoordinates) + [Some(route[currentIndex])]
      ensures !old(TickScheduled()) ==>
                && currentIndex == old(currentIndex) && markerPosition == old(markerPosition)
                && polylineCoordinates == old(polylineCoordinates)
      ensures isMoving == old(isMoving) && markerIcon == old(markerIcon)
    {
      if isMoving && currentIndex < |route| - 1 {
        var prevIndex := currentIndex;
        if prevIndex + 1 < |route| {
          markerPosition := At(route, prevIndex + 1);
          polylineCoordinates := polylineCoordinates + [At(route, prevIndex + 1)];
          currentIndex := prevIndex + 1;
        } else {
          assert false;
        }
      }
    }

    /** `resetMarker`: every field back to its initial value. */
    method ResetMarker()
      modifies this
      ensures AtStart() && Valid()
    {
      markerPosition := At(route, 0);
      polylineCoordinates := [At(route, 0)];
      currentIndex := 0;
      isMoving := false;
      markerIcon := InitialIcon;
    }
  }
}
