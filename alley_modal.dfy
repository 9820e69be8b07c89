/**
 * The alley modal: confirming starts an alley for the selected bus on the
 * chosen alley, after checking that an alley and a bus are selected.
 */
module AlleyModal {
  import opened Wrappers
  import opened BusList
  import opened ModalEffects

  /** The validation of `handleConfirm` passes. */
  predicate MayStartAlley(option: Option<string>, bus: Option<SelectedBus>) {
    TruthyText(option) && bus.Some?
  }

  /** The effects of one `handleConfirm`. */
  function ConfirmEffects(option: Option<string>, bus: Option<SelectedBus>, startAlleyOk: bool): (t: seq<Effect>)
    // loading is switched on before anything is checked
    ensures |t| > 0 && t[0] == SetLoading(true)
    // a validation failure returns early and leaves loading on; after the request it is off
    ensures forall initial :: LoadingAfter(initial, t) == !MayStartAlley(option, bus)
    ensures NoApiCall(t) <==> !MayStartAlley(option, bus)
    // the option is checked before the bus
    ensures !TruthyText(option) ==> Notify(NoAlleySelected) in t && Notify(NoBusSelected) !in t
    ensures Notify(NoBusSelected) in t <==> TruthyText(option) && bus.None?
    ensures forall k :: 0 <= k < |t| && t[k].StartAlley? ==>
              MayStartAlley(option, bus) && t[k] == StartAlley(option.value, bus.value.vehicleAssignmentId)
    ensures forall k :: 0 <= k < |t| ==> !t[k].EndAlley? && !t[k].StartDispatch?
    // onConfirm then onClose on success only
    ensures Confirmed in t <==> MayStartAlley(option, bus) && startAlleyOk
    ensures Closed in t <==> Confirmed in t
    ensures forall k :: 0 <= k < |t| && t[k] == Confirmed ==> k + 1 < |t| && t[k + 1] == Closed
    ensures Notify(StartAlleyFailed) in t <==> MayStartAlley(option, bus) && !startAlleyOk
  {
    if !TruthyText(option) then [SetLoading(true), Notify(NoAlleySelected)]
    else if bus.None? then [SetLoading(true), Notify(NoBusSelected)]
    else if startAlleyOk then
      var t := [SetLoading(true), StartAlley(option.value, bus.value.vehicleAssignmentId), Confirmed, Closed, SetLoading(false)];
      assert IsApiCall(t[1]);
      t
    else
      var t := [SetLoading(true), StartAlley(option.value, bus.value.vehicleAssignmentId), Notify(StartAlleyFailed), SetLoading(false)];
      assert IsApiCall(t[1]);
      t
  }

  /** Each validation alert appears exactly when its check is the one that fails. */
  lemma ConfirmAlerts(option: Option<string>, bus: Option<SelectedBus>, startAlleyOk: bool, t: seq<Effect>)
    requires t == ConfirmEffects(option, bus, startAlleyOk)
    ensures Notify(NoAlleySelected) in t <==> !TruthyText(option)
    ensures Notify(NoBusSelected) in t <==> TruthyText(option) && bus.None?
  {
    if !TruthyText(option) {
      assert t[1] == Notify(NoAlleySelected);
    }
  }

  class AlleyModal {
    var selectedOption: Option<string>
    var loading: bool
    /** Everything the handlers have done so far, oldest first. */
    var effects: seq<Effect>

    constructor ()
      ensures selectedOption == None && !loading && effects == []
    {
      selectedOption, loading, effects := None, false, [];
    }

    /** `handleOptionSelect`: choose the alley. */
    method HandleOptionSelect(option: string)
      modifies this
      ensures selectedOption == Some(option)
      ensures loading == old(loading) && effects == old(effects)
    {
      selectedOption := Some(option);
    }

    /** `handleConfirm`. */
    method HandleConfirm(bus: Option<SelectedBus>, startAlleyOk: bool)
      modifies this
      ensures effects == old(effects) + ConfirmEffects(old(selectedOption), bus, startAlleyOk)
      ensures loading == !MayStartAlley(old(selectedOption), bus)
      ensures selectedOption == old(selectedOption)
    {
      var t := [SetLoading(true)];
      if !TruthyText(selectedOption) {
        effects, loading := effects + t + [Notify(NoAlleySelected)], true;
        return;
      }
      if bus.None? {
        effects, loading := effects + t + [Notify(NoBusSelected)], true;
        return;
      }
      t := t + [StartAlley(selectedOption.value, bus.value.vehicleAssignmentId)];  // await startAlley
      if startAlleyOk {
        t := t + [Confirmed, Closed];
      } else {
        t := t + [Notify(StartAlleyFailed)];
      }
      t := t + [SetLoading(false)];  // finally
      effects, loading := effects + t, false;
    }
  }
}
