/**
 * The interval edit form: the title, the start and end times and the number
 * of minutes between dispatches are checked before the interval is saved.
 */
module TimerEdit {
  import opened Wrappers
  import opened JsText

  const TitleRequired := "Title is required."
  const TitleTooLong := "Title must not exceed 255 characters."
  const StartTimeRequired := "Start time is required."
  const EndTimeRequired := "End time is required."
  const MinutesTooSmall := "Minutes interval must be at least 1."
  const ValidationFailedMessage := "Validation Error: Please fix the errors before saving."

  const MaxTitleLength := 255

  /** A JavaScript number as this field can hold it: an integer or `NaN`. */
  datatype Minutes = Finite(value: int) | NaN

  datatype Interval = Interval(id: string, name: string, startTime: string, endTime: string, timerLimit: Minutes)

  /** One message per field; `""` means the field is fine. */
  datatype Errors = Errors(title: string, startTime: string, endTime: string, minutesInterval: string)

  const NoErrors := Errors("", "", "", "")

  /** The title rule: blank (empty or whitespace only) is required, otherwise
      more than 255 UTF-16 code units is too long. */
  function TitleError(name: string): (e: string)
    ensures e == TitleRequired <==> AllWhitespace(name)
    ensures e == TitleTooLong <==> !AllWhitespace(name) && Utf16Length(name) > MaxTitleLength
    ensures e == "" <==> !AllWhitespace(name) && Utf16Length(name) <= MaxTitleLength
  {
    TrimEmptyIffAllWhitespace(name);
    if name == "" || Trim(name) == "" then TitleRequired
    else if Utf16Length(name) > MaxTitleLength then TitleTooLong
    else ""
  }

  /** The minutes rule: `!timerLimit || isNaN(timerLimit) || timerLimit < 1`. */
  function MinutesError(m: Minutes): (e: string)
    ensures e != "" <==> m.NaN? || m.value < 1
    ensures e != "" ==> e == MinutesTooSmall
  {
    if m.NaN? || m.value == 0 || m.value < 1 then MinutesTooSmall else ""
  }

  /** The error record `validate` builds. */
  function ComputeErrors(iv: Interval): Errors {
    Errors(
      TitleError(iv.name),
      if iv.startTime == "" then StartTimeRequired else "",
      if iv.endTime == "" then EndTimeRequired else "",
      MinutesError(iv.timerLimit))
  }

  /** What an acceptable interval is. */
  predicate Acceptable(iv: Interval) {
    && !AllWhitespace(iv.name)
    && Utf16Length(iv.name) <= MaxTitleLength
    && iv.startTime != ""
    && iv.endTime != ""
    && iv.timerLimit.Finite? && iv.timerLimit.value >= 1
  }

  /** `validate()` passes (all four messages empty) exactly for acceptable intervals. */
  lemma ValidIffAcceptable(iv: Interval)
    ensures ComputeErrors(iv) == NoErrors <==> Acceptable(iv)
  {
  }

  /** Each missing time gets its own message. */
  lemma MissingTimesReported(iv: Interval)
    ensures ComputeErrors(iv).startTime == StartTimeRequired <==> iv.startTime == ""
    ensures ComputeErrors(iv).endTime == EndTimeRequired <==> iv.endTime == ""
  {
  }

  /** The minutes box shows `String(timerLimit)`. */
  function DisplayMinutes(m: Minutes): string {
    match m
    case Finite(n) => IntToString(n)
    case NaN => "NaN"
  }

  /** Typing `text` into the minutes box: `timerLimit: parseInt(text) || 0`. */
  function WithMinutesText(iv: Interval, text: string): (r: Interval)
    ensures r.timerLimit.Finite?
    ensures r == iv.(timerLimit := r.timerLimit)
  {
    iv.(timerLimit := Finite(ParseIntOrZero(text)))
  }

  /** Re-reading what the box shows keeps an integer, and turns `NaN` into 0. */
  lemma DisplayedMinutesReadBack(iv: Interval)
    ensures WithMinutesText(iv, DisplayMinutes(iv.timerLimit)).timerLimit ==
              if iv.timerLimit.NaN? then Finite(0) else iv.timerLimit
  {
    if iv.timerLimit.Finite? {
      ParseIntOfIntToString(iv.timerLimit.value);
    } else {
      ParseIntWithoutDigits("NaN");
    }
  }

  /** Minutes text without leading digits becomes 0 and so fails validation. */
  lemma UnreadableMinutesFailValidation(iv: Interval, text: string)
    requires ParseInt(text) == None
    ensures ComputeErrors(WithMinutesText(iv, text)).minutesInterval == MinutesTooSmall
    ensures !Acceptable(WithMinutesText(iv, text))
  {
  }

  /** What the form has done, oldest first. */
  datatype FormEffect = Saved(interval: Interval) | Cancelled | Toast(message: string)

  class TimerEdit {
    var errors: Errors
    var loading: bool
    var effects: seq<FormEffect>

    constructor ()
      ensures errors == NoErrors && !loading && effects == []
    {
      errors, loading, effects := NoErrors, false, [];
    }

    /** `validate()`: record the messages and report whether all are empty. */
    method Validate(iv: Interval) returns (ok: bool)
      modifies this
      ensures errors == ComputeErrors(iv)
      ensures ok <==> Acceptable(iv)
      ensures loading == old(loading) && effects == old(effects)
    {
      errors := ComputeErrors(iv);
      ok := errors == NoErrors;
      ValidIffAcceptable(iv);
    }

    /** `handleSave`: a failing validation shows a toast and never saves;
        otherwise `onSave` runs under the loading flag, which is cleared only
        if `onSave` completes (a throwing `onSave` leaves it set). */
    method HandleSave(iv: Interval, saveCompletes: bool)
      modifies this
      ensures errors == ComputeErrors(iv)
      ensures !Acceptable(iv) ==> effects == old(effects) + [Toast(ValidationFailedMessage)] && loading == old(loading)
      ensures Acceptable(iv) ==> effects == old(effects) + [Saved(iv)] && loading == !saveCompletes
    {
      var ok := Validate(iv);
      if !ok {
        effects := effects + [Toast(ValidationFailedMessage)];
        return;
      }
      loading := true;
      effects := effects + [Saved(iv)];
      if saveCompletes {
        loading := false;
      }
    }

    /** `handleCancel`: clear every message, then `onCancel`. */
    method HandleCancel()
      modifies this
      ensures errors == NoErrors
      ensures effects == old(effects) + [Cancelled] && loading == old(loading)
    {
      errors := NoErrors;
      effects := effects + [Cancelled];
    }
  }
}
