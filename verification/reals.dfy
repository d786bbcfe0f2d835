/** Helpers on real numbers shared by the queue sizing and the packet timestamps. */
module Reals {

  /** qMax on qreal: the larger of the two. */
  function RMax(a: real, b: real): real { if a >= b then a else b }
}
