/**
 * Sizing of a stream thread's packet queue from the video frame rate:
 * threshold = int(0.61803 * max(24, fps)), capacity = int(1.61803 * threshold).
 * Both conversions to int truncate a non-negative value, that is, take the floor.
 */
module QueueSizing {
  import opened Reals

  /** The packet queue's low-water threshold and high-water capacity. */
  datatype QueueConfig = QueueConfig(threshold: int, capacity: int)

  const Golden: real := 0.61803
  const GoldenPlusOne: real := 1.61803
  /** The frame rate assumed when the video frame rate is lower or unknown. */
  const MinFrameRate: real := 24.0

  function QueueThreshold(fps: real): (t: int)
    ensures t >= 14
    ensures t as real <= Golden * RMax(MinFrameRate, fps) < t as real + 1.0
  {
    (Golden * RMax(MinFrameRate, fps)).Floor
  }

  function QueueCapacity(threshold: int): (c: int)
    ensures threshold >= 2 ==> c > threshold
    ensures threshold >= 0 ==> threshold <= c <= 2 * threshold
  {
    (GoldenPlusOne * threshold as real).Floor
  }

  /** The configuration both setups apply to their thread's queue. */
  function SizedQueue(fps: real): (q: QueueConfig)
    ensures 14 <= q.threshold < q.capacity
  {
    var t := QueueThreshold(fps);
    QueueConfig(t, QueueCapacity(t))
  }

  /** A queue is sized when its threshold is at least the minimum and below its capacity. */
  predicate Sized(q: QueueConfig) {
    14 <= q.threshold < q.capacity
  }

  /** At or below 24 fps (also for an unknown rate of 0) the queue is 14 / 22 packets. */
  lemma MinimumQueue(fps: real)
    requires fps <= MinFrameRate
    ensures SizedQueue(fps) == QueueConfig(14, 22)
  {
  }

  /** A faster video never gets a smaller queue. */
  lemma {:induction false} SizingMonotone(fps1: real, fps2: real)
    requires fps1 <= fps2
    ensures SizedQueue(fps1).threshold <= SizedQueue(fps2).threshold
    ensures SizedQueue(fps1).capacity <= SizedQueue(fps2).capacity
  {
    var t1, t2 := QueueThreshold(fps1), QueueThreshold(fps2);
    assert t1 <= t2 by {
      assert t1 as real <= Golden * RMax(MinFrameRate, fps2);
    }
    assert GoldenPlusOne * t1 as real <= GoldenPlusOne * t2 as real;
  }

  /**
   * The capacity holds about one second of video: between fps - 3 and fps packets,
   * for frame rates from 24 to 1000.
   */
  lemma CapacityIsAboutOneSecond(fps: real)
    requires MinFrameRate <= fps <= 1000.0
    ensures fps - 3.0 < SizedQueue(fps).capacity as real <= fps
  {
    var t := QueueThreshold(fps);
    var c := QueueCapacity(t);
    assert t as real <= Golden * fps < t as real + 1.0;
    assert c as real <= GoldenPlusOne * t as real < c as real + 1.0;
  }
}
