/**
 * The browser's timer table as the components see it: `setTimeout` and
 * `setInterval` hand out fresh positive handles and record the delay each
 * was created with, `clearTimeout` and `clearInterval` disarm them, and a
 * timeout leaves the table when it fires.
 */
module Timers {

  class Timers {
    /** Timeouts armed and not yet fired or cleared. */
    var timeouts: set<nat>
    /** Intervals running and not yet cleared. */
    var intervals: set<nat>
    /** The next handle to hand out. */
    var next: nat
    /** The delay, in milliseconds, of every handle handed out so far. */
    var delays: map<nat, nat>

    /** Every handle in the table was handed out, and handles are positive. */
    ghost predicate Valid()
      reads this
    {
      0 < next
      && (forall h :: h in delays ==> 0 < h < next)
      && (forall h :: h in timeouts ==> h in delays)
      && (forall h :: h in intervals ==> h in delays)
    }

    constructor()
      ensures Valid() && timeouts == {} && intervals == {}
    {
      timeouts := {};
      intervals := {};
      next := 1;
      delays := map[];
    }

    method SetTimeout(ms: nat) returns (h: nat)
      requires Valid()
      modifies this
      ensures Valid() && h == old(next) && h > 0 && next == old(next) + 1
      ensures h !in old(timeouts) && h !in old(intervals) && h !in old(delays)
      ensures delays == old(delays)[h := ms]
      ensures timeouts == old(timeouts) + {h} && intervals == old(intervals)
    {
      h := next;
      next := next + 1;
      delays := delays[h := ms];
      timeouts := timeouts + {h};
    }

    method SetInterval(ms: nat) returns (h: nat)
      requires Valid()
      modifies this
      ensures Valid() && h == old(next) && h > 0 && next == old(next) + 1
      ensures h !in old(timeouts) && h !in old(intervals) && h !in old(delays)
      ensures delays == old(delays)[h := ms]
      ensures intervals == old(intervals) + {h} && timeouts == old(timeouts)
    {
      h := next;
      next := next + 1;
      delays := delays[h := ms];
      intervals := intervals + {h};
    }

    /** `clearTimeout(h)`; a timeout that has been cleared can never fire. */
    method ClearTimeout(h: nat)
      requires Valid()
      modifies this
      ensures Valid() && timeouts == old(timeouts) - {h} && intervals == old(intervals) && next == old(next) && delays == old(delays)
    {
      timeouts := timeouts - {h};
    }

    method ClearInterval(h: nat)
      requires Valid()
      modifies this
      ensures Valid() && intervals == old(intervals) - {h} && timeouts == old(timeouts) && next == old(next) && delays == old(delays)
    {
      intervals := intervals - {h};
    }

    /** The timeout `h` fires: it leaves the table before its callback runs. */
    method Expire(h: nat)
      requires Valid() && h in timeouts
      modifies this
      ensures Valid() && timeouts == old(timeouts) - {h} && intervals == old(intervals) && next == old(next) && delays == old(delays)
    {
      timeouts := timeouts - {h};
    }
  }
}
