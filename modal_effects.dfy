/**
 * The observable effects of the dispatch and alley modals' confirm handlers,
 * in the order they happen: `setLoading` calls, requests to the dispatch API,
 * the parent's `onConfirm` and `onClose` callbacks, and toasts or alerts.
 */
module ModalEffects {
  import opened Wrappers

  datatype Effect =
    | SetLoading(on: bool)
    | EndAlley(dispatchLogsId: int)
    | StartDispatch(route: Option<string>, vehicleAssignmentId: int)
    | StartAlley(alley: string, vehicleAssignmentId: int)
    | Confirmed
    | Closed
    | Notify(message: Message)

  /** The toasts and alerts the modals show, each with its exact text below. */
  datatype Message =
    | TimerRunning
    | NotOnAlley
    | UnexpectedError
    | NoAlleySelected
    | NoBusSelected
    | StartAlleyFailed

  function Text(m: Message): string {
    match m
    case TimerRunning => "Cannot dispatch until the timer is completed."
    case NotOnAlley => "The bus must be on alley before it can be dispatched."
    case UnexpectedError => "An unexpected error occurred. Please try again later."
    case NoAlleySelected => "Please select an alley to start."
    case NoBusSelected => "No bus selected."
    case StartAlleyFailed => "Failed to start the alley. Please try again."
  }

  /** The message a shown text belongs to. Rather than comparing against each `Text(m)`
      in turn, it tells the six texts apart by their length and, for the two texts of 53
      characters, by their last letter: comparing whole literals is far costlier for the
      verifier, and `TextReadsBack` shows the shortcut decodes every text correctly. */
  function MessageOf(s: string): Option<Message> {
    if |s| == 45 then Some(TimerRunning)
    else if |s| == 53 && s[51] == 'd' then Some(NotOnAlley)
    else if |s| == 53 then Some(UnexpectedError)
    else if |s| == 32 then Some(NoAlleySelected)
    else if |s| == 16 then Some(NoBusSelected)
    else if |s| == 44 then Some(StartAlleyFailed)
    else None
  }

  /** Every text reads back as its message, so distinct messages show distinct
      texts and a trace of messages tells exactly which texts the user saw. */
  lemma TextReadsBack(m: Message)
    ensures MessageOf(Text(m)) == Some(m)
  {
    var s := Text(m);
    match m
    case TimerRunning => assert |s| == 45;
    case NotOnAlley => assert |s| == 53 && s[51] == 'd';
    case UnexpectedError => assert |s| == 53 && s[51] == 'r';
    case NoAlleySelected => assert |s| == 32;
    case NoBusSelected => assert |s| == 16;
    case StartAlleyFailed => assert |s| == 44;
  }

  lemma TextInjective(m1: Message, m2: Message)
    ensures Text(m1) == Text(m2) <==> m1 == m2
  {
    TextReadsBack(m1);
    TextReadsBack(m2);
  }

  predicate IsApiCall(e: Effect) {
    e.EndAlley? || e.StartDispatch? || e.StartAlley?
  }

  predicate NoApiCall(t: seq<Effect>) {
    forall k :: 0 <= k < |t| ==> !IsApiCall(t[k])
  }

  /** The `loading` flag after the effects `t`, starting from `initial`: the
      value of the last `setLoading` call, if any. */
  function LoadingAfter(initial: bool, t: seq<Effect>): bool {
    if t == [] then initial
    else if t[|t| - 1].SetLoading? then t[|t| - 1].on
    else LoadingAfter(initial, t[..|t| - 1])
  }

  /** A JavaScript number that may be absent is truthy when present and non-zero. */
  predicate TruthyId(id: Option<int>) {
    id.Some? && id.value != 0
  }

  /** A JavaScript string that may be `null` is truthy when present and non-empty. */
  predicate TruthyText(s: Option<string>) {
    s.Some? && s.value != ""
  }
}
