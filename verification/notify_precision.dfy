/**
 * The progress-notification interval of the player (Internal::computeNotifyPrecision).
 * Durations are in milliseconds; the frame rate is a real number of frames per second.
 */
module NotifyPrecision {

  function Min(a: int, b: int): int { if a <= b then a else b }
  function Max(a: int, b: int): int { if a >= b then a else b }

  /** Media longer than this (one minute, in ms) is notified every 500 ms. */
  const LongMedia: int := 60 * 1000
  /** Media longer than this (20 s, in ms) is notified every 250 ms. */
  const MediumMedia: int := 20 * 1000

  /**
   * The notification interval in ms for a medium of `duration` ms playing at `fps`.
   * `int(qreal(1000) / fps)` truncates toward zero; for fps > 1 the quotient is
   * positive, so truncation is the floor. `duration / 80` is a division of a
   * positive 64-bit integer, where C truncation and Dafny's division agree.
   */
  function ComputeNotifyPrecision(duration: int, fps: real): (r: int)
    ensures 20 <= r <= 500
    ensures r == 500 <==> duration <= 0 || duration > LongMedia
    ensures 0 < duration <= LongMedia ==> r <= 250
    ensures MediumMedia < duration <= LongMedia ==> r == 250
  {
    if duration <= 0 || duration > LongMedia then 500
    else if duration > MediumMedia then 250
    else
      var dt := if fps > 1.0 then Min(250, (1000.0 / fps).Floor) else duration / 80;
      Max(20, dt)
  }

  /** For a short medium with a known frame rate above 1, the interval is one frame time in ms, clamped to [20, 250]. */
  lemma ShortMediaFollowsFrameTime(duration: int, fps: real)
    requires 0 < duration <= MediumMedia && fps > 1.0
    ensures ComputeNotifyPrecision(duration, fps) == Max(20, Min(250, (1000.0 / fps).Floor))
    ensures fps <= 4.0 ==> ComputeNotifyPrecision(duration, fps) == 250
    ensures fps >= 50.0 ==> ComputeNotifyPrecision(duration, fps) == 20
  {
    var q := 1000.0 / fps;
    assert q * fps == 1000.0;
    if fps >= 50.0 {
      assert q.Floor <= 20;
    }
  }

  /**
   * Without a usable frame rate, a short medium is notified at least 80 times over
   * its length (the interval is at most a 80th of it), but never more often than every 20 ms.
   */
  lemma ShortMediaFollowsDuration(duration: int, fps: real)
    requires 0 < duration <= MediumMedia && fps <= 1.0
    ensures ComputeNotifyPrecision(duration, fps) == Max(20, duration / 80)
    ensures 20 * 80 <= duration ==> ComputeNotifyPrecision(duration, fps) * 80 <= duration
    ensures duration < 20 * 80 ==> ComputeNotifyPrecision(duration, fps) == 20
  {
  }

  /** The boundary values: 20000 ms and 60000 ms still belong to the shorter class. */
  lemma NotifyPrecisionExamples()
    ensures ComputeNotifyPrecision(0, 0.0) == 500
    ensures ComputeNotifyPrecision(5000, 0.0) == 62
    ensures ComputeNotifyPrecision(15000, 30.0) == 33
    ensures ComputeNotifyPrecision(20000, 0.0) == 250
    ensures ComputeNotifyPrecision(20001, 30.0) == 250
    ensures ComputeNotifyPrecision(60000, 30.0) == 250
    ensures ComputeNotifyPrecision(60001, 30.0) == 500
  {
    assert (1000.0 / 30.0).Floor == 33;
  }
}
