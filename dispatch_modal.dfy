/**
 * The dispatch modal (the variant under `dispatch/`): confirming sends an
 * "on alley" bus on the road by ending its alley and then starting a dispatch
 * on the chosen route, one request after the other.
 */
module DispatchModal {
  import opened Wrappers
  import opened DispatchJoin
  import opened BusList
  import opened ModalEffects

  /** The guards of `handleConfirm` pass: a bus is selected, the timer is not
      running, and the bus is on alley with a (truthy) dispatch log id. */
  predicate MayDispatch(bus: Option<SelectedBus>, timerRunning: bool) {
    && bus.Some?
    && !timerRunning
    && bus.value.status == OnAlley
    && TruthyId(bus.value.dispatchLogsId)
  }

  /** The effects of one `handleConfirm`, given the selected bus, whether the
      countdown is running, the chosen route and whether each request succeeds. */
  function ConfirmEffects(bus: Option<SelectedBus>, timerRunning: bool, option: Option<string>,
                          endAlleyOk: bool, startDispatchOk: bool): seq<Effect>
  {
    if bus.None? then []
    else if timerRunning then
      [SetLoading(true), SetLoading(false), Notify(TimerRunning), SetLoading(false)]
    else if bus.value.status != OnAlley || !TruthyId(bus.value.dispatchLogsId) then
      [SetLoading(true), SetLoading(false), Notify(NotOnAlley), SetLoading(false)]
    else if !endAlleyOk then
      [SetLoading(true), EndAlley(bus.value.dispatchLogsId.value), Notify(UnexpectedError), SetLoading(false)]
    else if !startDispatchOk then
      [SetLoading(true), EndAlley(bus.value.dispatchLogsId.value),
       StartDispatch(option, bus.value.vehicleAssignmentId), Notify(UnexpectedError), SetLoading(false)]
    else
      [SetLoading(true), EndAlley(bus.value.dispatchLogsId.value),
       StartDispatch(option, bus.value.vehicleAssignmentId), Confirmed, Closed, SetLoading(false)]
  }

  /** No selected bus: nothing happens. Otherwise loading is switched on first and is off
      at the end, and requests are made only when the guards pass. */
  lemma ConfirmGuards(bus: Option<SelectedBus>, timerRunning: bool, option: Option<string>,
                       endAlleyOk: bool, startDispatchOk: bool, t: seq<Effect>)
    requires t == ConfirmEffects(bus, timerRunning, option, endAlleyOk, startDispatchOk)
    ensures bus.None? ==> t == []
    ensures bus.Some? ==> |t| > 0 && t[0] == SetLoading(true)
    ensures forall initial :: LoadingAfter(initial, t) == if bus.None? then initial else false
    ensures NoApiCall(t) <==> !MayDispatch(bus, timerRunning)
    ensures Notify(TimerRunning) in t <==> bus.Some? && timerRunning
  {
    if MayDispatch(bus, timerRunning) {
      assert IsApiCall(t[1]);
    }
  }

  /** `endAlley` carries the bus's dispatch log id; `startDispatch` gets the chosen route
      (possibly null) and the bus's assignment, comes after `endAlley`, and is made exactly
      when `endAlley` has succeeded; no alley is started. */
  lemma ConfirmRequests(bus: Option<SelectedBus>, timerRunning: bool, option: Option<string>,
                         endAlleyOk: bool, startDispatchOk: bool, t: seq<Effect>)
    requires t == ConfirmEffects(bus, timerRunning, option, endAlleyOk, startDispatchOk)
    ensures forall k :: 0 <= k < |t| && t[k].EndAlley? ==>
              bus.Some? && bus.value.dispatchLogsId == Some(t[k].dispatchLogsId)
    ensures forall k :: 0 <= k < |t| && t[k].StartDispatch? ==>
              && bus.Some? && t[k] == StartDispatch(option, bus.value.vehicleAssignmentId)
              && exists i :: 0 <= i < k && t[i].EndAlley?
    ensures (exists k :: 0 <= k < |t| && t[k].StartDispatch?) <==> MayDispatch(bus, timerRunning) && endAlleyOk
    ensures forall k :: 0 <= k < |t| ==> !t[k].StartAlley?
  {
    if MayDispatch(bus, timerRunning) {
      assert t[1].EndAlley?;
      if endAlleyOk {
        assert t[2].StartDispatch?;
      }
    }
  }

  /** `onConfirm` then `onClose`, exactly when both requests succeed. */
  lemma ConfirmCloses(bus: Option<SelectedBus>, timerRunning: bool, option: Option<string>,
                       endAlleyOk: bool, startDispatchOk: bool, t: seq<Effect>)
    requires t == ConfirmEffects(bus, timerRunning, option, endAlleyOk, startDispatchOk)
    ensures Confirmed in t <==> MayDispatch(bus, timerRunning) && endAlleyOk && startDispatchOk
    ensures Closed in t <==> Confirmed in t
    ensures forall k :: 0 <= k < |t| && t[k] == Confirmed ==> k + 1 < |t| && t[k + 1] == Closed
  {
    if MayDispatch(bus, timerRunning) && endAlleyOk && startDispatchOk {
      assert t[3] == Confirmed;
    }
  }

  /** Which toast each failure shows: the timer toast while the timer runs, the "on alley"
      toast when the bus is not on alley or has no (truthy) log id, and the generic error
      toast exactly when a request fails. */
  lemma ConfirmToasts(bus: Option<SelectedBus>, timerRunning: bool, option: Option<string>,
                      endAlleyOk: bool, startDispatchOk: bool, t: seq<Effect>)
    requires t == ConfirmEffects(bus, timerRunning, option, endAlleyOk, startDispatchOk)
    ensures Notify(NotOnAlley) in t <==>
              && bus.Some? && !timerRunning
              && (bus.value.status != OnAlley || !TruthyId(bus.value.dispatchLogsId))
    ensures Notify(UnexpectedError) in t <==> MayDispatch(bus, timerRunning) && !(endAlleyOk && startDispatchOk)
  {
    if bus.Some? && !timerRunning && (bus.value.status != OnAlley || !TruthyId(bus.value.dispatchLogsId)) {
      assert t[2] == Notify(NotOnAlley);
    }
  }

  class DispatchModal {
    var selectedOption: Option<string>
    var loading: bool
    /** Everything the handlers have done so far, oldest first. */
    var effects: seq<Effect>

    constructor ()
      ensures selectedOption == None && !loading && effects == []
    {
      selectedOption, loading, effects := None, false, [];
    }

    /** `handleOptionSelect`: choose the route to dispatch to. */
    method HandleOptionSelect(option: string)
      modifies this
      ensures selectedOption == Some(option)
      ensures loading == old(loading) && effects == old(effects)
    {
      selectedOption := Some(option);
    }

    /** `handleConfirm`. */
    method HandleConfirm(bus: Option<SelectedBus>, timerRunning: bool, endAlleyOk: bool, startDispatchOk: bool)
      modifies this
      ensures effects == old(effects) + ConfirmEffects(bus, timerRunning, old(selectedOption), endAlleyOk, startDispatchOk)
      ensures loading == if bus.None? then old(loading) else false
      ensures selectedOption == old(selectedOption)
    {
      if bus.None? {
        return;
      }
      var b := bus.value;
      var t := [SetLoading(true)];
      if timerRunning {
        t := t + [SetLoading(false), Notify(TimerRunning)];
      } else if b.status != OnAlley || !TruthyId(b.dispatchLogsId) {
        t := t + [SetLoading(false), Notify(NotOnAlley)];
      } else {
        t := t + [EndAlley(b.dispatchLogsId.value)];  // await endAlley
        if !endAlleyOk {
          t := t + [Notify(UnexpectedError)];
        } else {
          t := t + [StartDispatch(selectedOption, b.vehicleAssignmentId)];  // await startDispatch
          if !startDispatchOk {
            t := t + [Notify(UnexpectedError)];
          } else {
            t := t + [Confirmed, Closed];
          }
        }
      }
      t := t + [SetLoading(false)];  // finally
      effects, loading := effects + t, false;
    }
  }
}
