/** The frame pacer: converting a frame-rate limit into a minimum frame
    duration, and the time to sleep after a frame has been presented.
    Durations are counted in nanoseconds, the resolution of the durations the
    window stores. */
module Pacing {
  import opened Wrappers

  datatype Duration = Duration(nanos: nat)

  const NanosPerMilli: nat := 1_000_000

  /** The frame duration stored for a limit of `fps` frames per second: a
      whole number of milliseconds, 1000 divided by `fps` with the remainder
      dropped. So a frame lasts at most 1/fps second, and less than one
      millisecond longer than that would require. */
  function FrameDuration(fps: nat): (d: Duration)
    requires fps != 0
    ensures d.nanos % NanosPerMilli == 0
    ensures d.nanos * fps <= 1000 * NanosPerMilli
    ensures 1000 * NanosPerMilli < (d.nanos + NanosPerMilli) * fps
  {
    Duration((1000 / fps) * NanosPerMilli)
  }

  /** Above 1000 frames per second the stored duration is zero, so the
      limit no longer delays any frame. */
  lemma HighRateIsUnthrottled(fps: nat, elapsed: nat)
    requires fps > 1000
    ensures SleepAmount(Some(FrameDuration(fps)), elapsed) == 0
  {
  }

  /** The time to sleep after a frame that took `elapsed` nanoseconds: the
      remainder of the configured duration when the frame was shorter than it,
      and nothing otherwise or without a limit. The sleep never overshoots:
      the frame plus the sleep lasts the configured duration, or the frame
      alone already did. */
  function SleepAmount(maxDur: Option<Duration>, elapsed: nat): (s: nat)
    ensures maxDur.None? ==> s == 0
    ensures maxDur.Some? ==> elapsed + s >= maxDur.value.nanos
    ensures s > 0 ==> maxDur.Some? && elapsed + s == maxDur.value.nanos
  {
    match maxDur
    case None => 0
    case Some(dur) => if elapsed < dur.nanos then dur.nanos - elapsed else 0
  }

  /** With a limit of `fps` frames per second and an instantaneous frame, the
      pacer waits the whole stored duration, 1000 / fps milliseconds. */
  lemma InstantFrameWaitsWholeDuration(fps: nat)
    requires fps != 0
    ensures SleepAmount(Some(FrameDuration(fps)), 0) == (1000 / fps) * NanosPerMilli
  {
  }
}
