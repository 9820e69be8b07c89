/**
 * The older dispatch modal (directly under `components/`): confirming issues
 * `endAlley` when the bus is on alley and `startDispatch` whenever the bus is
 * not idle, then waits for all issued requests together (`Promise.all`).
 */
module LegacyDispatchModal {
  import opened Wrappers
  import opened DispatchJoin
  import opened BusList
  import opened ModalEffects

  /** `endAlley` is pushed: the bus is on alley with a truthy dispatch log id. */
  predicate IssuesEndAlley(bus: Option<SelectedBus>, timerRunning: bool) {
    bus.Some? && !timerRunning && bus.value.status == OnAlley && TruthyId(bus.value.dispatchLogsId)
  }

  /** `startDispatch` is pushed: the bus is anything but idle. */
  predicate IssuesStartDispatch(bus: Option<SelectedBus>, timerRunning: bool) {
    bus.Some? && !timerRunning && bus.value.status != Idle
  }

  /** `Promise.all` resolves: every issued request succeeds. */
  predicate AllIssuedSucceed(bus: Option<SelectedBus>, timerRunning: bool, endAlleyOk: bool, startDispatchOk: bool) {
    (IssuesEndAlley(bus, timerRunning) ==> endAlleyOk) && (IssuesStartDispatch(bus, timerRunning) ==> startDispatchOk)
  }

  /** The requests pushed onto the list that `Promise.all` awaits, in push order. */
  function Ending(bus: Option<SelectedBus>, timerRunning: bool): seq<Effect> {
    if IssuesEndAlley(bus, timerRunning) then [EndAlley(bus.value.dispatchLogsId.value)] else []
  }

  function Starting(bus: Option<SelectedBus>, timerRunning: bool, option: Option<string>): seq<Effect> {
    if IssuesStartDispatch(bus, timerRunning) then [StartDispatch(option, bus.value.vehicleAssignmentId)] else []
  }

  /** `onConfirm` then `onClose`, once every request has succeeded. */
  function Done(bus: Option<SelectedBus>, timerRunning: bool, endAlleyOk: bool, startDispatchOk: bool): seq<Effect> {
    if AllIssuedSucceed(bus, timerRunning, endAlleyOk, startDispatchOk) then [Confirmed, Closed] else []
  }

  /** The effects of one `handleConfirm` of the older modal. */
  function ConfirmEffects(bus: Option<SelectedBus>, timerRunning: bool, option: Option<string>,
                          endAlleyOk: bool, startDispatchOk: bool): seq<Effect>
  {
    if bus.None? then []
    else if timerRunning then [SetLoading(true), Notify(TimerRunning), SetLoading(false)]
    else
      [SetLoading(true)] + Ending(bus, timerRunning) + Starting(bus, timerRunning, option)
      + Done(bus, timerRunning, endAlleyOk, startDispatchOk) + [SetLoading(false)]
  }

  /** Where each part of the effects sits when the guards let the requests through. */
  lemma ConfirmEffectsLayout(bus: Option<SelectedBus>, timerRunning: bool, option: Option<string>,
                             endAlleyOk: bool, startDispatchOk: bool, t: seq<Effect>)
    requires t == ConfirmEffects(bus, timerRunning, option, endAlleyOk, startDispatchOk)
    requires bus.Some? && !timerRunning
    ensures var e, s, d := Ending(bus, timerRunning), Starting(bus, timerRunning, option),
                           Done(bus, timerRunning, endAlleyOk, startDispatchOk);
            && |t| == 2 + |e| + |s| + |d| && t[0] == SetLoading(true) && t[|t| - 1] == SetLoading(false)
            && (forall k :: 0 <= k < |e| ==> t[1 + k] == e[k])
            && (forall k :: 0 <= k < |s| ==> t[1 + |e| + k] == s[k])
            && (forall k :: 0 <= k < |d| ==> t[1 + |e| + |s| + k] == d[k])
  {
    var e, s, d := Ending(bus, timerRunning), Starting(bus, timerRunning, option),
                   Done(bus, timerRunning, endAlleyOk, startDispatchOk);
    assert t == [SetLoading(true)] + e + s + d + [SetLoading(false)];
  }

  /** Loading is set first and cleared by the finally clause on every path that set it,
      the timer path included. */
  lemma ConfirmLoading(bus: Option<SelectedBus>, timerRunning: bool, option: Option<string>,
                       endAlleyOk: bool, startDispatchOk: bool, t: seq<Effect>)
    requires t == ConfirmEffects(bus, timerRunning, option, endAlleyOk, startDispatchOk)
    ensures bus.None? ==> t == []
    ensures bus.Some? ==> |t| > 0 && t[0] == SetLoading(true)
    ensures forall initial :: LoadingAfter(initial, t) == if bus.None? then initial else false
  {
    if bus.Some? && !timerRunning {
      ConfirmEffectsLayout(bus, timerRunning, option, endAlleyOk, startDispatchOk, t);
    }
  }

  /** `endAlley` is issued, with the bus's dispatch log id, exactly when the bus is on alley. */
  lemma ConfirmEndsAlley(bus: Option<SelectedBus>, timerRunning: bool, option: Option<string>,
                         endAlleyOk: bool, startDispatchOk: bool, t: seq<Effect>)
    requires t == ConfirmEffects(bus, timerRunning, option, endAlleyOk, startDispatchOk)
    ensures (exists k :: 0 <= k < |t| && t[k].EndAlley?) <==> IssuesEndAlley(bus, timerRunning)
    ensures forall k :: 0 <= k < |t| && t[k].EndAlley? ==> bus.Some? && bus.value.dispatchLogsId == Some(t[k].dispatchLogsId)
  {
    if bus.Some? && !timerRunning {
      ConfirmEffectsLayout(bus, timerRunning, option, endAlleyOk, startDispatchOk, t);
      if IssuesEndAlley(bus, timerRunning) {
        assert t[1].EndAlley?;
      }
    }
  }

  /** `startDispatch` is issued, with the chosen route and the bus's assignment, exactly
      when the bus is not idle; the older modal never starts an alley. */
  lemma ConfirmStartsDispatch(bus: Option<SelectedBus>, timerRunning: bool, option: Option<string>,
                              endAlleyOk: bool, startDispatchOk: bool, t: seq<Effect>)
    requires t == ConfirmEffects(bus, timerRunning, option, endAlleyOk, startDispatchOk)
    ensures (exists k :: 0 <= k < |t| && t[k].StartDispatch?) <==> IssuesStartDispatch(bus, timerRunning)
    ensures forall k :: 0 <= k < |t| && t[k].StartDispatch? ==>
              bus.Some? && t[k] == StartDispatch(option, bus.value.vehicleAssignmentId)
    ensures forall k :: 0 <= k < |t| ==> !t[k].StartAlley?
  {
    if bus.Some? && !timerRunning {
      ConfirmEffectsLayout(bus, timerRunning, option, endAlleyOk, startDispatchOk, t);
      var e := Ending(bus, timerRunning);
      if IssuesStartDispatch(bus, timerRunning) {
        assert t[1 + |e|].StartDispatch?;
      }
    }
  }

  /** `onConfirm` then `onClose` unless the timer runs or an issued request fails. */
  lemma ConfirmCloses(bus: Option<SelectedBus>, timerRunning: bool, option: Option<string>,
                      endAlleyOk: bool, startDispatchOk: bool, t: seq<Effect>)
    requires t == ConfirmEffects(bus, timerRunning, option, endAlleyOk, startDispatchOk)
    ensures Confirmed in t <==>
              bus.Some? && !timerRunning && AllIssuedSucceed(bus, timerRunning, endAlleyOk, startDispatchOk)
    ensures Closed in t <==> Confirmed in t
    ensures forall k :: 0 <= k < |t| && t[k] == Confirmed ==> k + 1 < |t| && t[k + 1] == Closed
  {
    if bus.Some? && !timerRunning {
      ConfirmEffectsLayout(bus, timerRunning, option, endAlleyOk, startDispatchOk, t);
      var e, s := Ending(bus, timerRunning), Starting(bus, timerRunning, option);
      if AllIssuedSucceed(bus, timerRunning, endAlleyOk, startDispatchOk) {
        assert t[1 + |e| + |s|] == Confirmed;
      }
    }
  }

  /** An idle bus issues no request at all, yet the modal still confirms and closes. */
  lemma IdleBusConfirms(bus: Option<SelectedBus>, timerRunning: bool, option: Option<string>,
                        endAlleyOk: bool, startDispatchOk: bool, t: seq<Effect>)
    requires t == ConfirmEffects(bus, timerRunning, option, endAlleyOk, startDispatchOk)
    requires bus.Some? && !timerRunning && bus.value.status == Idle
    ensures NoApiCall(t) && Confirmed in t
  {
    ConfirmEffectsLayout(bus, timerRunning, option, endAlleyOk, startDispatchOk, t);
    assert t[1] == Confirmed;
  }

  class DispatchModal {
    var selectedOption: Option<string>
    var loading: bool
    /** Everything the handlers have done so far, oldest first. */
    var effects: seq<Effect>

    constructor ()
      ensures selectedOption == None && !loading && effects == []
    {
      selectedOption, loading, effects := None, false, [];
    }

    /** `handleOptionSelect`: choose the route to dispatch to. */
    method HandleOptionSelect(option: string)
      modifies this
      ensures selectedOption == Some(option)
      ensures loading == old(loading) && effects == old(effects)
    {
      selectedOption := Some(option);
    }

    /** `handleConfirm`: push the requests that apply, then await them all. */
    method HandleConfirm(bus: Option<SelectedBus>, timerRunning: bool, endAlleyOk: bool, startDispatchOk: bool)
      modifies this
      ensures effects == old(effects) + ConfirmEffects(bus, timerRunning, old(selectedOption), endAlleyOk, startDispatchOk)
      ensures loading == if bus.None? then old(loading) else false
      ensures selectedOption == old(selectedOption)
    {
      if bus.None? {
        return;
      }
      var b := bus.value;
      var t := [SetLoading(true)];
      if timerRunning {
        t := t + [Notify(TimerRunning)];
      } else {
        var allOk := true;
        if b.status == OnAlley && TruthyId(b.dispatchLogsId) {
          t := t + [EndAlley(b.dispatchLogsId.value)];
          allOk := allOk && endAlleyOk;
        }
        if b.status != Idle {
          t := t + [StartDispatch(selectedOption, b.vehicleAssignmentId)];
          allOk := allOk && startDispatchOk;
        }
        if allOk {  // Promise.all resolved
          t := t + [Confirmed, Closed];
        }
      }
      t := t + [SetLoading(false)];  // finally
      effects, loading := effects + t, false;
    }
  }
}
