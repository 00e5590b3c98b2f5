/** Points in simulated time: a finite number of microseconds, or one of the two infinities
    that a runner's cached next run time can hold. */
module Timestamps {

  datatype Timestamp = MinusInfinity | Micros(us: int) | PlusInfinity
  {
    /** The order `this <= that`. */
    predicate AtMost(that: Timestamp) {
      || MinusInfinity?
      || that.PlusInfinity?
      || (Micros? && that.Micros? && us <= that.us)
    }
  }

  /** std::min on time stamps. */
  function Earlier(a: Timestamp, b: Timestamp): (m: Timestamp)
    ensures m.AtMost(a) && m.AtMost(b) && (m == a || m == b)
  {
    if a.AtMost(b) then a else b
  }

  datatype Option<+T> = None | Some(value: T)
}
