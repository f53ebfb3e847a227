/** A clock that never goes back; each reading may find it further on. */
module Clocks {
  /** Microseconds since the epoch. */
  type Time = int

  const SECOND: int := 1_000_000

  class Clock {
    var now: Time

    constructor (start: Time)
      ensures now == start
    {
      now := start;
    }

    method Read() returns (t: Time)
      modifies this
      ensures t == now && old(now) <= now
    {
      var passed: int :| passed >= 0;
      now := now + passed;
      t := now;
    }
  }
}
