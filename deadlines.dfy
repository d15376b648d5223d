/**
 * TIMED_OUT / NOT_TIMED_OUT and the absolute deadlines the plugin keeps
 * (m_hdt_timeout, m_var_timeout, m_idle_timeout, m_alarm_sound_timeout).
 * A deadline is a `time_t` in seconds; a deadline is reached at the very
 * second it names.
 */
module Deadlines {

  /** After this many seconds GPS and heading data are assumed invalid (WATCHDOG_TIMEOUT). */
  const WatchdogTimeout: int := 10
  /** HEADING_TIMEOUT, in seconds. */
  const HeadingTimeout: int := 5
  /** ALARM_TIMEOUT, in seconds. */
  const AlarmTimeout: int := 10

  /** TIMED_OUT(t, timeout): the deadline `timeout` has been reached at time `t`. */
  function TimedOut(t: int, timeout: int): (r: bool)
    ensures t == timeout ==> r
    ensures r ==> t >= timeout
  {
    t >= timeout
  }

  /** NOT_TIMED_OUT(t, timeout): defined by the header as the negation of TIMED_OUT. */
  function NotTimedOut(t: int, timeout: int): (r: bool)
    ensures r <==> t < timeout
  {
    !TimedOut(t, timeout)
  }

  /** The deadline set at `now` for a value that stays valid `duration` seconds. */
  function DeadlineAfter(now: int, duration: int): (deadline: int)
  {
    now + duration
  }

  /** The two predicates are exact complements, and the boundary counts as timed out. */
  lemma TimedOutComplement(t: int, timeout: int)
    ensures TimedOut(t, timeout) != NotTimedOut(t, timeout)
    ensures TimedOut(timeout, timeout)
    ensures NotTimedOut(t, timeout) <==> t < timeout
  {
  }

  /** Once timed out, a deadline stays timed out at every later time. */
  lemma TimedOutMonotone(t: int, later: int, timeout: int)
    requires TimedOut(t, timeout) && t <= later
    ensures TimedOut(later, timeout)
  {
  }

  /**
   * A deadline set `duration` seconds after `stamp` is live at `now` exactly
   * while fewer than `duration` seconds have passed since `stamp`.
   */
  lemma DeadlineLiveness(stamp: int, duration: int, now: int)
    ensures NotTimedOut(now, DeadlineAfter(stamp, duration)) <==> now - stamp < duration
    ensures duration > 0 ==> NotTimedOut(stamp, DeadlineAfter(stamp, duration))
    ensures TimedOut(stamp + duration, DeadlineAfter(stamp, duration))
  {
  }

  /**
   * The header's timeouts used as durations: a value stamped at `stamp` is
   * still valid one second before its timeout and lost at it.
   */
  lemma HeaderTimeouts(stamp: int)
    ensures forall d :: d in {WatchdogTimeout, HeadingTimeout, AlarmTimeout} ==>
              NotTimedOut(stamp + d - 1, DeadlineAfter(stamp, d)) && TimedOut(stamp + d, DeadlineAfter(stamp, d))
  {
  }
}
