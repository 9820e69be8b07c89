/**
 * The bus list screen: it polls the assignment and dispatch endpoints, keeps
 * the last successfully built list of cards, and hands the pressed card's
 * identity to its parent.
 */
module BusList {
  import opened Wrappers
  import opened DispatchJoin

  /** What a card press passes to `setSelectedBus`. */
  datatype SelectedBus = SelectedBus(
    vehicleId: string,
    status: string,
    vehicleAssignmentId: int,
    dispatchLogsId: Option<int>)

  /** The selection payload of a card. */
  function SelectionOf(item: BusData): (sel: SelectedBus)
    ensures sel.vehicleId == item.vehicleId && sel.status == item.status
    ensures sel.vehicleAssignmentId == item.vehicleAssignmentId && sel.dispatchLogsId == item.dispatchLogsId
  {
    SelectedBus(item.vehicleId, item.status, item.vehicleAssignmentId, item.dispatchLogsId)
  }

  class BusList {
    /** The cards on screen (`busData`). */
    var busData: seq<BusData>

    constructor ()
      ensures busData == []
    {
      busData := [];
    }

    /** One run of the poller (on mount, then once a second): a successful
        fetch replaces the cards wholesale; a failed one keeps the old cards. */
    method Poll(response: FetchResult)
      modifies this
      ensures response.Fetched? ==> busData == Transform(response.assignments, response.dispatches)
      ensures response.FetchFailed? ==> busData == old(busData)
      ensures busData == FetchAssignmentsAndDispatches(response).GetOr(old(busData))
    {
      match response {
        case Fetched(assignments, dispatches) =>
          busData := Transform(assignments, dispatches);
        case FetchFailed =>
      }
    }

    /** Pressing card `i`: exactly that card's identity, status and log id. */
    method Press(i: nat) returns (sel: SelectedBus)
      requires i < |busData|
      ensures sel.vehicleId == busData[i].vehicleId && sel.status == busData[i].status
      ensures sel.vehicleAssignmentId == busData[i].vehicleAssignmentId
      ensures sel.dispatchLogsId == busData[i].dispatchLogsId
    {
      sel := SelectionOf(busData[i]);
    }
  }
}
