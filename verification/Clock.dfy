module Clocks {
  import opened Durable

  /** A clock that never runs backwards. */
  class Clock {
    var now: Time

    constructor (start: Time)
      ensures now == start
    {
      now := start;
    }

    method Read() returns (t: Time)
      modifies this
      ensures t == now >= old(now)
    {
      assert now >= now;
      var later: Time :| later >= now;
      now := later;
      t := later;
    }
  }
}
