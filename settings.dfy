/**
 * The PersistentSettings fields the plugin's state decisions read: which
 * radars are on screen, and the timed-idle schedule.
 */
module Settings {

  /** Number of radars the plugin supports (RADARS). */
  const Radars: int := 2
  /** `chart_overlay` value meaning that no radar is overlaid on the chart. */
  const NoOverlay: int := -1
  /** Idle run times below this many seconds are raised to it. */
  const MinIdleRunTime: int := 30
  /** Largest `timed_idle` index: 35 minutes. */
  const MaxTimedIdle: int := 7
  /** Minutes per `timed_idle` step. */
  const TimedIdleStep: int := 5

  /** The display part of PersistentSettings; C's ints are read as booleans where non-zero. */
  datatype DisplaySettings = DisplaySettings(show: int, showRadar: seq<int>, chartOverlay: int)

  /** A radar is drawn somewhere: in its own window or as the chart overlay. */
  function IsRadarOnScreen(s: DisplaySettings, radar: int): (r: bool)
    requires |s.showRadar| == Radars && 0 <= radar < Radars
    ensures r ==> s.show > 0
    ensures s.show > 0 && s.chartOverlay == radar ==> r
    ensures s.show > 0 && s.showRadar[radar] != 0 ==> r
    ensures r ==> s.showRadar[radar] != 0 || s.chartOverlay == radar
  {
    s.show > 0 && (s.showRadar[radar] != 0 || s.chartOverlay == radar)
  }

  /** A radar is drawn as the chart overlay. */
  function IsOverlayOnScreen(s: DisplaySettings, radar: int): (r: bool)
    ensures r ==> s.show > 0
    ensures s.chartOverlay == NoOverlay && radar >= 0 ==> !r
    ensures r ==> s.chartOverlay == radar
    ensures s.show > 0 && s.chartOverlay == radar ==> r
  {
    s.show > 0 && s.chartOverlay == radar
  }

  /** An overlaid radar is on screen. */
  lemma OverlayImpliesOnScreen(s: DisplaySettings, radar: int)
    requires |s.showRadar| == Radars && 0 <= radar < Radars
    requires IsOverlayOnScreen(s, radar)
    ensures IsRadarOnScreen(s, radar)
  {
  }

  /** With `show` off nothing is on screen; with no overlay no radar is overlaid. */
  lemma NothingShownWhenHidden(s: DisplaySettings)
    requires |s.showRadar| == Radars
    ensures s.show <= 0 ==> forall radar :: 0 <= radar < Radars ==> !IsRadarOnScreen(s, radar)
    ensures s.chartOverlay == NoOverlay ==> forall radar :: 0 <= radar < Radars ==> !IsOverlayOnScreen(s, radar)
  {
  }

  /** At most one radar is the chart overlay. */
  lemma OverlayIsUnique(s: DisplaySettings, a: int, b: int)
    requires IsOverlayOnScreen(s, a) && IsOverlayOnScreen(s, b)
    ensures a == b
  {
  }

  /** `idle_run_time`: a value below 30 seconds is treated as 30. */
  function EffectiveIdleRunTime(idleRunTime: int): (r: int)
    ensures r >= MinIdleRunTime && r >= idleRunTime
    ensures r == idleRunTime || r == MinIdleRunTime
  {
    if idleRunTime < MinIdleRunTime then MinIdleRunTime else idleRunTime
  }

  /** A longer configured run is never a shorter effective run. */
  lemma EffectiveIdleRunTimeMonotone(a: int, b: int)
    requires a <= b
    ensures EffectiveIdleRunTime(a) <= EffectiveIdleRunTime(b)
  {
  }

  /** What a `timed_idle` index selects. */
  datatype TimedIdle = IdleOff | IdleEvery(minutes: int)

  /** `timed_idle`: 0 is off, k in 1..7 is 5 * k minutes. */
  function TimedIdleSetting(k: int): (t: TimedIdle)
    requires 0 <= k <= MaxTimedIdle
    ensures t.IdleOff? <==> k == 0
    ensures t.IdleEvery? ==> TimedIdleStep <= t.minutes <= TimedIdleStep * MaxTimedIdle
    ensures t.IdleEvery? ==> t.minutes % TimedIdleStep == 0
  {
    if k == 0 then IdleOff else IdleEvery(TimedIdleStep * k)
  }

  /** The index a schedule is stored under. */
  function TimedIdleIndex(t: TimedIdle): (k: int)
  {
    match t
    case IdleOff => 0
    case IdleEvery(m) => m / TimedIdleStep
  }

  /** The index can be recovered from the schedule it selects. */
  lemma TimedIdleRoundTrip(k: int)
    requires 0 <= k <= MaxTimedIdle
    ensures TimedIdleIndex(TimedIdleSetting(k)) == k
  {
  }

  /** A higher index is a strictly longer idle period. */
  lemma TimedIdleIncreasing(a: int, b: int)
    requires 1 <= a < b <= MaxTimedIdle
    ensures TimedIdleSetting(a).minutes < TimedIdleSetting(b).minutes
  {
  }
}
