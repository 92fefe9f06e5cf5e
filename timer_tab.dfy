/** The state behind the timer tab's gauge. */
module TabTimer {
  import opened Numeric

  class TimerTab {
    var isRunning: bool
    var progress: U16
    /** How many times the app has asked this tab to start a countdown. */
    var startRequests: nat

    /** The derived `Default`. */
    constructor Default()
      ensures !isRunning && progress == 0 && startRequests == 0
    {
      isRunning := false;
      progress := 0;
      startRequests := 0;
    }

    /**
     * Stands for the `run` call the app makes on this tab when the start key is
     * pressed. The tab defines no such operation, so the call is recorded as a
     * start request and nothing else about the tab changes.
     */
    method Run()
      modifies this
      ensures startRequests == old(startRequests) + 1
      ensures isRunning == old(isRunning) && progress == old(progress)
    {
      startRequests := startRequests + 1;
    }
  }
}
