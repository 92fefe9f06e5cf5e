/**
 * The countdown: a `Timer` record whose `start` runs one loop iteration per
 * one-second tick and sends a progress value down an unbounded channel each time.
 */
module TimerBackend {
  import opened Numeric
  import opened Wrappers

  /** `TimerUsageMode`; `Normal` is the default. */
  datatype TimerUsageMode = Normal | Zen
  /** `TimerMode`; `Pomodoro` is the default. */
  datatype TimerMode = Pomodoro | Basic
  /** `TimerState`; `Stopped` is the default. */
  datatype TimerState = Started | Stopped

  const DEFAULT_USAGE_MODE: TimerUsageMode := Normal
  const DEFAULT_MODE: TimerMode := Pomodoro
  const DEFAULT_STATE: TimerState := Stopped

  /** A reading of the monotonic clock; the model never looks inside one. */
  type Instant = nat

  /** The default length of a session: 25 minutes. */
  const DEFAULT_SECS: U16 := 1500

  /** The period of the countdown's tick interval, in whole seconds. */
  const PERIOD_SECS: nat := 1

  /** `Timer::max_u16`: the largest `u16`, above the fixed tick period, so the loop's assertion holds. */
  function MaxU16(): (r: nat)
    ensures r == U16_MAX
    ensures PERIOD_SECS < r
  {
    U16_MAX
  }

  /** The sending half of the progress channel: everything sent, in order. */
  class UnboundedSender {
    var sent: seq<U16>

    constructor ()
      ensures sent == []
    {
      sent := [];
    }

    method Send(value: U16)
      modifies this
      ensures sent == old(sent) + [value]
    {
      sent := sent + [value];
    }
  }

  /**
   * The value sent at iteration `i`: `(i / secs) * 100` in `u16` arithmetic.
   * Because the loop only runs with `i < secs`, the quotient is 0, so the value is
   * 0 and the multiplication can never overflow.
   */
  function Progress(i: U16, secs: U16): (r: U16)
    requires i < secs
    ensures r == 0 && r <= 100
  {
    assert i / secs == 0;
    (i / secs) * 100
  }

  /** The values sent by the first `n` iterations of an unpaused run of `secs` iterations. */
  function SendsUpTo(secs: U16, n: nat): (s: seq<U16>)
    requires n <= secs
    ensures |s| == n
    ensures forall k :: 0 <= k < n ==> s[k] == 0
  {
    seq(n, k requires 0 <= k < n => Progress(k, secs))
  }

  /** Everything one call of `start` sends: one value per iteration unless paused. */
  function StartSends(secs: U16, isPaused: bool): (s: seq<U16>)
    ensures isPaused ==> s == []
    ensures !isPaused ==> |s| == secs
    ensures forall k :: 0 <= k < |s| ==> s[k] == 0 && s[k] <= 100
  {
    if isPaused then [] else SendsUpTo(secs, secs)
  }

  /** How a call of `start` ends: normally, or in the underflow panic of `secs -= progress`. */
  datatype StartResult = Completed | SubtractOverflow

  class Timer {
    var secs: U16
    var progress: U16
    var isPaused: bool
    var startedAt: Instant
    var endedAt: Option<Instant>

    /** `Timer::default`, with the clock's current reading passed in as `now`. */
    constructor Default(now: Instant)
      ensures secs == DEFAULT_SECS && progress == 0 && !isPaused
      ensures startedAt == now && endedAt == None
    {
      secs := DEFAULT_SECS;
      progress := 0;
      isPaused := false;
      startedAt := now;
      endedAt := None;
    }

    method SetTimerEnd(atSecs: U16)
      modifies this
      ensures secs == atSecs
      ensures progress == old(progress) && isPaused == old(isPaused)
      ensures startedAt == old(startedAt) && endedAt == old(endedAt)
    {
      secs := atSecs;
    }

    /**
     * `Timer::start`. The range `0..secs` is fixed when the loop begins. Each
     * iteration waits for one tick and then sends `(i / secs) * 100`; when the
     * timer is paused the first iteration instead takes `progress` off `secs`
     * and leaves the loop, so nothing is sent.
     */
    method Start(sender: UnboundedSender) returns (result: StartResult)
      modifies this, sender
      ensures sender.sent == old(sender.sent) + StartSends(old(secs), old(isPaused))
      ensures result == SubtractOverflow <==> old(isPaused) && 0 < old(secs) && old(secs) < old(progress)
      ensures secs == (if old(isPaused) && 0 < old(secs) && result == Completed
                       then old(secs) - old(progress) else old(secs))
      ensures progress == old(progress) && isPaused == old(isPaused)
      ensures startedAt == old(startedAt) && endedAt == old(endedAt)
    {
      result := Completed;
      var end := secs;
      for i := 0 to end
        invariant secs == end
        invariant isPaused ==> i == 0
        invariant progress == old(progress) && isPaused == old(isPaused)
        invariant startedAt == old(startedAt) && endedAt == old(endedAt)
        invariant sender.sent == old(sender.sent) + SendsUpTo(end, i)
      {
        if isPaused {
          if secs < progress {
            result := SubtractOverflow;
            break;
          }
          secs := secs - progress;
          break;
        }
        // interval.tick(): one loop step; the period is fixed, so the assertion holds
        assert PERIOD_SECS < MaxU16();
        sender.Send(Progress(i, secs));
        assert SendsUpTo(end, i + 1) == SendsUpTo(end, i) + [Progress(i, end)];
      }
    }
  }
}
