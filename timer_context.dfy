/**
 * The shared timer state offered to the screens: seconds left and whether the
 * countdown runs, each changed only by its own setter.
 */
module TimerContext {

  class TimerContext {
    var timer: int
    var isRunning: bool

    /** The provider's initial state. */
    constructor ()
      ensures timer == 0 && !isRunning
    {
      timer, isRunning := 0, false;
    }

    method StartTimer()
      modifies this
      ensures isRunning && timer == old(timer)
    {
      isRunning := true;
    }

    method StopTimer()
      modifies this
      ensures !isRunning && timer == old(timer)
    {
      isRunning := false;
    }

    method SetTimer(time: int)
      modifies this
      ensures timer == time && isRunning == old(isRunning)
    {
      timer := time;
    }
  }
}
