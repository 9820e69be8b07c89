/**
 * The join behind the bus cards: every vehicle assignment is paired with the
 * first dispatch log (ignoring completed alleys) that refers to it, and the
 * card's status, route, dispatch log id and colour are derived from that log.
 */
module DispatchJoin {
  import opened Wrappers

  const AlleyCompleted := "alley_completed"
  const OnAlley := "on alley"
  const OnRoad := "on road"
  const Idle := "idle"

  const AlleyColor := "rgba(255, 165, 0, 1)"
  const RoadColor := "rgba(173, 255, 47, 1)"
  const IdleColor := "#D3D3D3"

  datatype Vehicle = Vehicle(vehicleId: string)

  /** One record of `getVehicleAssignments()`. */
  datatype Assignment = Assignment(vehicleAssignmentId: int, vehicle: Vehicle)

  /** One record of `getAllDispatches()`. */
  datatype Dispatch = Dispatch(status: string, route: string, vehicleAssignmentId: int, dispatchLogsId: int)

  /** One bus card. */
  datatype BusData = BusData(
    vehicleId: string,
    status: string,
    color: string,
    route: string,
    vehicleAssignmentId: int,
    dispatchLogsId: Option<int>)

  /** The two remote reads, each of which may throw. */
  datatype FetchResult =
    | Fetched(assignments: seq<Assignment>, dispatches: seq<Dispatch>)
    | FetchFailed

  /** `dispatches.filter(d => d.status !== 'alley_completed')`. */
  function ActiveDispatches(ds: seq<Dispatch>): (r: seq<Dispatch>)
    ensures |r| <= |ds|
    ensures forall k :: 0 <= k < |r| ==> r[k].status != AlleyCompleted
  {
    if ds == [] then []
    else if ds[0].status != AlleyCompleted then [ds[0]] + ActiveDispatches(ds[1..])
    else ActiveDispatches(ds[1..])
  }

  /** `ds.find(d => d.vehicle_assignment_id === id)`. */
  function FindDispatch(ds: seq<Dispatch>, id: int): (r: Option<Dispatch>)
    ensures r.None? <==> forall k :: 0 <= k < |ds| ==> ds[k].vehicleAssignmentId != id
    ensures r.Some? ==> exists j :: 0 <= j < |ds| && ds[j] == r.value && ds[j].vehicleAssignmentId == id &&
                                    forall k :: 0 <= k < j ==> ds[k].vehicleAssignmentId != id
  {
    if ds == [] then None
    else if ds[0].vehicleAssignmentId == id then Some(ds[0])
    else
      var r := FindDispatch(ds[1..], id);
      assert r.Some? ==> exists j :: 0 <= j < |ds[1..]| && ds[1..][j] == r.value && ds[1..][j].vehicleAssignmentId == id &&
                                    forall k :: 0 <= k < j ==> ds[1..][k].vehicleAssignmentId != id;
      assert r.Some? ==> exists j :: 1 <= j < |ds| && ds[j] == r.value && ds[j].vehicleAssignmentId == id &&
                                    forall k :: 1 <= k < j ==> ds[k].vehicleAssignmentId != id;
      r
  }

  /** Log `j` of `ds` is the one that feeds the card of assignment `id`: it is for
      that assignment, it is not a completed alley, and no earlier such log exists. */
  ghost predicate Supplies(ds: seq<Dispatch>, id: int, j: int) {
    && 0 <= j < |ds|
    && Eligible(ds[j], id)
    && forall k :: 0 <= k < j ==> !Eligible(ds[k], id)
  }

  predicate Eligible(d: Dispatch, id: int) {
    d.vehicleAssignmentId == id && d.status != AlleyCompleted
  }

  /** Filtering and then finding picks exactly the first log of the original
      list that is for the assignment and not a completed alley. */
  lemma {:induction false} FindActiveIsFirstEligible(ds: seq<Dispatch>, id: int)
    ensures var r := FindDispatch(ActiveDispatches(ds), id);
            && (r.None? <==> forall k :: 0 <= k < |ds| ==> !Eligible(ds[k], id))
            && (r.Some? ==> exists j :: Supplies(ds, id, j) && ds[j] == r.value)
  {
    if ds != [] {
      var tail := ds[1..];
      FindActiveIsFirstEligible(tail, id);
      var r' := FindDispatch(ActiveDispatches(tail), id);
      assert forall k :: 0 <= k < |tail| ==> tail[k] == ds[k + 1];
      if Eligible(ds[0], id) {
        assert ActiveDispatches(ds) == [ds[0]] + ActiveDispatches(tail);
        assert Supplies(ds, id, 0);
      } else {
        if ds[0].status == AlleyCompleted {
          assert ActiveDispatches(ds) == ActiveDispatches(tail);
        } else {
          var active := [ds[0]] + ActiveDispatches(tail);
          assert ActiveDispatches(ds) == active;
          assert active[1..] == ActiveDispatches(tail);
        }
        assert FindDispatch(ActiveDispatches(ds), id) == r';
        if r'.Some? {
          var j :| Supplies(tail, id, j) && tail[j] == r'.value;
          assert Supplies(ds, id, j + 1);
        }
      }
    }
  }

  /** The card colour for a status. */
  function ColorOf(status: string): (c: string)
    ensures c == AlleyColor <==> status == OnAlley
    ensures c == RoadColor <==> status == OnRoad
    ensures c == IdleColor <==> status != OnAlley && status != OnRoad
  {
    if status == OnAlley then AlleyColor
    else if status == OnRoad then RoadColor
    else IdleColor
  }

  /** The card of one assignment, given the filtered logs. */
  function Derive(a: Assignment, active: seq<Dispatch>): BusData {
    var d := FindDispatch(active, a.vehicleAssignmentId);
    var status := if d.Some? then d.value.status else Idle;
    BusData(
      "BUS " + a.vehicle.vehicleId,
      status,
      ColorOf(status),
      if d.Some? then d.value.route else "",
      a.vehicleAssignmentId,
      if d.Some? then Some(d.value.dispatchLogsId) else None)
  }

  /** The transformed list: `assignments.map(...)` over the filtered logs. */
  function Transform(assignments: seq<Assignment>, ds: seq<Dispatch>): seq<BusData> {
    var active := ActiveDispatches(ds);
    seq(|assignments|, i requires 0 <= i < |assignments| => Derive(assignments[i], active))
  }

  /** One card per assignment, in order, and each card's fields as the first
      eligible log (or, with none, the idle defaults) dictates. */
  lemma TransformCard(assignments: seq<Assignment>, ds: seq<Dispatch>, i: int)
    requires 0 <= i < |assignments|
    ensures |Transform(assignments, ds)| == |assignments|
    ensures var b := Transform(assignments, ds)[i];
            var a := assignments[i];
            && b.vehicleId == "BUS " + a.vehicle.vehicleId
            && b.vehicleAssignmentId == a.vehicleAssignmentId
            && b.color == ColorOf(b.status)
            && ((forall k :: 0 <= k < |ds| ==> !Eligible(ds[k], a.vehicleAssignmentId)) ==>
                  b.status == Idle && b.route == "" && b.dispatchLogsId == None)
            && (forall j :: Supplies(ds, a.vehicleAssignmentId, j) ==>
                  b.status == ds[j].status && b.route == ds[j].route && b.dispatchLogsId == Some(ds[j].dispatchLogsId))
  {
    var a := assignments[i];
    FindActiveIsFirstEligible(ds, a.vehicleAssignmentId);
    forall j | Supplies(ds, a.vehicleAssignmentId, j)
      ensures FindDispatch(ActiveDispatches(ds), a.vehicleAssignmentId) == Some(ds[j])
    {
      var r := FindDispatch(ActiveDispatches(ds), a.vehicleAssignmentId);
      var j' :| Supplies(ds, a.vehicleAssignmentId, j') && ds[j'] == r.value;
      SuppliesUnique(ds, a.vehicleAssignmentId, j, j');
    }
  }

  lemma SuppliesUnique(ds: seq<Dispatch>, id: int, j: int, j': int)
    requires Supplies(ds, id, j) && Supplies(ds, id, j')
    ensures j == j'
  {
  }

  /** A completed alley never feeds a card: no card carries that status. */
  lemma CompletedAlleyNeverShown(assignments: seq<Assignment>, ds: seq<Dispatch>, i: int)
    requires 0 <= i < |assignments|
    ensures |Transform(assignments, ds)| == |assignments|
    ensures Transform(assignments, ds)[i].status != AlleyCompleted
  {
    var active := ActiveDispatches(ds);
    var r := FindDispatch(active, assignments[i].vehicleAssignmentId);
    if r.Some? {
      var j :| 0 <= j < |active| && active[j] == r.value && active[j].vehicleAssignmentId == assignments[i].vehicleAssignmentId &&
               forall k :: 0 <= k < j ==> active[k].vehicleAssignmentId != assignments[i].vehicleAssignmentId;
    }
  }

  /** `fetchAssignmentsAndDispatches()`: the card list, or nothing (`undefined`)
      when either remote read throws. */
  function FetchAssignmentsAndDispatches(response: FetchResult): (r: Option<seq<BusData>>)
    ensures r.None? <==> response.FetchFailed?
    ensures r.Some? ==> |r.value| == |response.assignments|
  {
    match response
    case FetchFailed => None
    case Fetched(assignments, dispatches) => Some(Transform(assignments, dispatches))
  }
}
