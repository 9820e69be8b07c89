/**
 * The earlier route-replay marker: the same once-a-second walk along the
 * route as the map screen's marker, but without a reset, so a finished replay
 * stays on the last point.
 */
module SimulatedMarker {
  import opened Wrappers
  import MapSimulatedMarker

  type MarkerIcon = MapSimulatedMarker.MarkerIcon

  class SimulatedMarker<P> {
    const route: seq<P>
    var markerPosition: Option<P>
    var polylineCoordinates: seq<Option<P>>
    var currentIndex: nat
    var isMoving: bool
    var markerIcon: MarkerIcon

    /** The polyline is the route prefix up to the current index, the marker is
        on the current point, and the index never leaves the route. */
    ghost predicate Valid()
      reads this
    {
      && |polylineCoordinates| == currentIndex + 1
      && (forall k :: 0 <= k < |polylineCoordinates| ==> polylineCoordinates[k] == MapSimulatedMarker.At(route, k))
      && markerPosition == MapSimulatedMarker.At(route, currentIndex)
      && (currentIndex < |route| || currentIndex == 0)
    }

    predicate TickScheduled()
      reads this
    {
      isMoving && currentIndex < |route| - 1
    }

    constructor (routeData: seq<P>)
      ensures route == routeData && Valid()
      ensures markerPosition == MapSimulatedMarker.At(route, 0)
      ensures polylineCoordinates == [MapSimulatedMarker.At(route, 0)]
      ensures currentIndex == 0 && !isMoving && markerIcon == MapSimulatedMarker.InitialIcon
    {
      route := routeData;
      markerPosition := MapSimulatedMarker.At(routeData, 0);
      polylineCoordinates := [MapSimulatedMarker.At(routeData, 0)];
      currentIndex := 0;
      isMoving := false;
      markerIcon := MapSimulatedMarker.InitialIcon;
    }

    /** `handleMarkerPress`: starts the walk only when stopped. */
    method HandleMarkerPress()
      requires Valid()
      modifies this
      ensures Valid()
      ensures !old(isMoving) ==> isMoving && markerIcon == MapSimulatedMarker.MovingIcon
      ensures old(isMoving) ==> markerIcon == old(markerIcon) && isMoving
      ensures markerPosition == old(markerPosition) && polylineCoordinates == old(polylineCoordinates)
      ensures currentIndex == old(currentIndex)
    {
      if !isMoving {
        isMoving := true;
        markerIcon := MapSimulatedMarker.MovingIcon;
      }
    }

    /** One second on the replay clock: the next point is appended and the
        index advances; at the last point no interval is kept, so nothing moves
        (the updater's stop branch cannot be reached). */
    method Tick()
      requires Valid()
      modifies this
      ensures Valid()
      ensures old(TickScheduled()) ==>
                && currentIndex == old(currentIndex) + 1
                && markerPosition == Some(route[currentIndex])
                && polylineCoordinates == old(polylineCoordinates) + [Some(route[currentIndex])]
      ensures !old(TickScheduled()) ==>
                && currentIndex == old(currentIndex) && markerPosition == old(markerPosition)
                && polylineCoordinates == old(polylineCoordinates)
      ensures isMoving == old(isMoving) && markerIcon == old(markerIcon)
    {
      if isMoving && currentIndex < |route| - 1 {
        var prevIndex := currentIndex;
        if prevIndex + 1 < |route| {
          markerPosition := MapSimulatedMarker.At(route, prevIndex + 1);
          polylineCoordinates := polylineCoordinates + [MapSimulatedMarker.At(route, prevIndex + 1)];
          currentIndex := prevIndex + 1;
        } else {
          assert false;
        }
      }
    }
  }
}
