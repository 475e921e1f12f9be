/**
 * The haptic engine: a store subscriber that turns the slider drag into
 * vibration. While dragging, the vibe's zone picks a pattern; a change of
 * zone replaces the repeating interval, so at most one runs at a time.
 * `navigator.vibrate` is a command log and the browser's timers the
 * `Timers` table.
 */
module HapticEngine {
  import opened Wrappers
  import opened AppStore
  import Timers

  datatype Zone = Depleted | Neutral | Hyper

  /** The zone of a vibe: below 0.3 depleted, above 0.7 hyper, neutral in between (both bounds included). */
  function ZoneOf(vibe: real): (z: Zone)
    ensures z == Depleted <==> vibe < 0.3
    ensures z == Hyper <==> vibe > 0.7
    ensures z == Neutral <==> 0.3 <= vibe <= 0.7
  {
    if vibe < 0.3 then Depleted else if vibe > 0.7 then Hyper else Neutral
  }

  /** One `navigator.vibrate` call: `Stop` is `vibrate(0)`, `Buzz` a pattern of milliseconds. */
  datatype Command = Stop | Buzz(pattern: seq<nat>)

  const TouchPulse: Command := Buzz([10])
  const DepletedPattern: seq<nat> := [200, 50, 100, 500]
  const HyperPattern: seq<nat> := [10, 10, 10, 10, 10, 10]
  const DepletedPeriodMs: nat := 850
  const HyperPeriodMs: nat := 80

  /** The command a zone issues when it is entered. */
  function CommandFor(z: Zone): (c: Command)
    ensures c == Stop <==> z == Neutral
    ensures z == Depleted ==> c == Buzz(DepletedPattern)
    ensures z == Hyper ==> c == Buzz(HyperPattern)
  {
    match z
    case Depleted => Buzz(DepletedPattern)
    case Hyper => Buzz(HyperPattern)
    case Neutral => Stop
  }

  /** The repeat period of a zone that repeats: the depleted heartbeat is slow, the hyper buzz fast. */
  function PeriodFor(z: Zone): (ms: nat)
    requires z != Neutral
    ensures z == Depleted ==> ms == DepletedPeriodMs
    ensures z == Hyper ==> ms == HyperPeriodMs
    ensures HyperPeriodMs <= ms <= DepletedPeriodMs
  {
    if z == Depleted then DepletedPeriodMs else HyperPeriodMs
  }

  /** The set of handles in an optional handle. */
  function HandleSet(h: Option<nat>): (hs: set<nat>)
    ensures |hs| <= 1
    ensures forall x :: x in hs <==> h == Some(x)
  {
    if h.Some? then {h.value} else {}
  }

  class Engine {
    /** Whether the subscriber is installed: only when vibration is available. */
    var subscribed: bool
    var lastPattern: Zone
    var intervalRef: Option<nat>
    /** The zone whose pattern the running interval repeats (the interval callback's closure). */
    var repeatZone: Zone
    /** Every `navigator.vibrate` call made so far, oldest first. */
    var log: seq<Command>

    /**
     * While subscribed, an interval runs exactly when the last pattern
     * repeats, it is the one it was created for, it is still armed, and it
     * was created with that pattern's period.
     */
    ghost predicate Valid(timers: Timers.Timers)
      reads this, timers
    {
      timers.Valid()
      && (subscribed ==>
            (intervalRef.Some? <==> lastPattern != Neutral)
            && (intervalRef.Some? ==> intervalRef.value in timers.intervals
                                       && repeatZone == lastPattern
                                       && timers.delays[intervalRef.value] == PeriodFor(lastPattern)))
    }

    /** Mounting: the subscriber is installed only when `navigator.vibrate` exists. */
    constructor(canVibrate: bool, timers: Timers.Timers)
      requires timers.Valid()
      ensures Valid(timers)
      ensures subscribed == canVibrate && lastPattern == Neutral && intervalRef == None && log == []
    {
      subscribed := canVibrate;
      lastPattern := Neutral;
      intervalRef := None;
      repeatZone := Neutral;
      log := [];
    }

    /** The subscriber, called with the new store state after every update. */
    method Update(s: AppState, timers: Timers.Timers)
      requires Valid(timers)
      modifies this, timers
      ensures Valid(timers) && subscribed == old(subscribed)
      ensures !old(subscribed) ==>
        log == old(log) && timers.intervals == old(timers.intervals) && lastPattern == old(lastPattern) && intervalRef == old(intervalRef)
      // a timeout is never touched
      ensures timers.timeouts == old(timers.timeouts)
      // releasing: stop, clear the interval, forget the pattern
      ensures old(subscribed) && !s.isDragging ==>
        log == old(log) + [Stop] && intervalRef == None && lastPattern == Neutral
        && timers.intervals == old(timers.intervals) - HandleSet(old(intervalRef))
      // dragging: the 10 ms pulse whenever the last pattern was neutral, then the zone's command on a change
      ensures old(subscribed) && s.isDragging ==>
        var pulse := if old(lastPattern) == Neutral then [TouchPulse] else [];
        var z := ZoneOf(s.vibe);
        lastPattern == z
        && (z == old(lastPattern) ==>
              log == old(log) + pulse && intervalRef == old(intervalRef) && timers.intervals == old(timers.intervals))
        && (z != old(lastPattern) ==>
              log == old(log) + pulse + [CommandFor(z)]
              && (intervalRef.Some? ==> intervalRef.value !in old(timers.intervals))
              && timers.intervals == old(timers.intervals) - HandleSet(old(intervalRef)) + HandleSet(intervalRef))
    {
      if !subscribed {
        return;
      }
      if !s.isDragging {
        Release(timers);
        return;
      }
      if lastPattern == Neutral {
        log := log + [TouchPulse];
      }
      var pattern := ZoneOf(s.vibe);
      if pattern == lastPattern {
        return;
      }
      Enter(pattern, timers);
    }

    /** The not-dragging branch of the subscriber. */
    method Release(timers: Timers.Timers)
      requires Valid(timers) && subscribed
      modifies this, timers
      ensures Valid(timers) && subscribed
      ensures log == old(log) + [Stop] && intervalRef == None && lastPattern == Neutral
      ensures timers.intervals == old(timers.intervals) - HandleSet(old(intervalRef))
      ensures timers.timeouts == old(timers.timeouts)
    {
      log := log + [Stop];
      if intervalRef.Some? {
        timers.ClearInterval(intervalRef.value);
        intervalRef := None;
      }
      lastPattern := Neutral;
    }

    /** A change of zone: clear the old interval before issuing the new pattern and arming its interval. */
    method Enter(pattern: Zone, timers: Timers.Timers)
      requires Valid(timers) && subscribed && pattern != lastPattern
      modifies this, timers
      ensures Valid(timers) && subscribed && lastPattern == pattern
      ensures log == old(log) + [CommandFor(pattern)]
      ensures intervalRef.Some? ==> intervalRef.value !in old(timers.intervals)
      ensures timers.intervals == old(timers.intervals) - HandleSet(old(intervalRef)) + HandleSet(intervalRef)
      ensures timers.timeouts == old(timers.timeouts)
    {
      StopRepeating(timers);
      lastPattern := pattern;
      if pattern == Depleted {
        log := log + [Buzz(DepletedPattern)];
        Repeat(Depleted, timers);
      } else if pattern == Hyper {
        log := log + [Buzz(HyperPattern)];
        Repeat(Hyper, timers);
      } else {
        log := log + [Stop];
      }
    }

    /** `clearInterval` on the running interval, if any, and forget it. */
    method StopRepeating(timers: Timers.Timers)
      requires timers.Valid()
      modifies this, timers
      ensures timers.Valid() && intervalRef == None && timers.next == old(timers.next) && timers.delays == old(timers.delays)
      ensures timers.intervals == old(timers.intervals) - HandleSet(old(intervalRef))
      ensures timers.timeouts == old(timers.timeouts)
      ensures subscribed == old(subscribed) && lastPattern == old(lastPattern) && log == old(log)
    {
      if intervalRef.Some? {
        timers.ClearInterval(intervalRef.value);
        intervalRef := None;
      }
    }

    /** Arm the interval that repeats `zone`'s pattern. */
    method Repeat(zone: Zone, timers: Timers.Timers)
      requires timers.Valid() && zone != Neutral
      modifies this, timers
      ensures timers.Valid() && intervalRef == Some(old(timers.next))
      ensures intervalRef.value in timers.intervals && repeatZone == zone
      ensures timers.delays == old(timers.delays)[intervalRef.value := PeriodFor(zone)]
      ensures timers.intervals == old(timers.intervals) + HandleSet(intervalRef)
      ensures timers.timeouts == old(timers.timeouts)
      ensures subscribed == old(subscribed) && lastPattern == old(lastPattern) && log == old(log)
    {
      var h := timers.SetInterval(PeriodFor(zone));
      intervalRef := Some(h);
      repeatZone := zone;
    }

    /** The running interval fires: it repeats its pattern only while the store still says dragging. */
    method IntervalTick(s: AppState, timers: Timers.Timers, h: nat)
      requires Valid(timers) && subscribed && intervalRef == Some(h)
      modifies this
      ensures Valid(timers)
      ensures log == old(log) + (if s.isDragging then [CommandFor(lastPattern)] else [])
      ensures lastPattern == old(lastPattern) && intervalRef == old(intervalRef) && subscribed
    {
      if s.isDragging {
        log := log + [CommandFor(repeatZone)];
      }
    }

    /** Unmounting: unsubscribe, clear the interval and stop the motor. */
    method Teardown(timers: Timers.Timers)
      requires Valid(timers)
      modifies this, timers
      ensures !subscribed && Valid(timers)
      ensures old(subscribed) ==>
        log == old(log) + [Stop] && timers.intervals == old(timers.intervals) - HandleSet(old(intervalRef))
      ensures !old(subscribed) ==> log == old(log) && timers.intervals == old(timers.intervals)
      ensures timers.timeouts == old(timers.timeouts)
    {
      if !subscribed {
        return;
      }
      subscribed := false;
      if intervalRef.Some? {
        timers.ClearInterval(intervalRef.value);
      }
      log := log + [Stop];
    }
  }
}
