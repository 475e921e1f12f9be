/**
 * The hold-to-pay pad on the checkout screen: pressing starts scanning and
 * arms a 1.5 s hold timer (plus a haptic buzz where vibration exists);
 * releasing early cancels both and returns to idle; the timer firing moves
 * checkout to filling and asks the server for the total.
 */
module BiometricPad {
  import opened Wrappers
  import opened AppStore
  import Timers
  import CheckoutAction
  import FluidTank

  /** How long the pad must be held: the hold timer's delay. */
  const HoldMs: nat := 1500
  /** The buzz interval's period while the pad is held. */
  const HapticPeriodMs: nat := 100

  /** The pad, and so its handlers, exist only on the checkout view while idle or scanning. */
  function Visible(s: AppState): (v: bool)
    // the pad and the fluid column are never on screen together
    ensures v ==> s.activeView == Checkout && !FluidTank.Mounted(s.checkoutState)
    ensures v <== s.activeView == Checkout && !FluidTank.Mounted(s.checkoutState)
  {
    s.activeView == Checkout && (s.checkoutState == Idle || s.checkoutState == Scanning)
  }

  class Pad {
    /** `timeoutRef`: the armed hold timer, if any. */
    var timeoutRef: Option<nat>
    /** `hapticRef`: the running buzz interval, if any. */
    var hapticRef: Option<nat>

    constructor()
      ensures timeoutRef == None && hapticRef == None
    {
      timeoutRef := None;
      hapticRef := None;
    }

    /**
     * Whatever the refs hold is still armed in the timer table: a 1500 ms
     * hold timeout and a 100 ms buzz interval.
     */
    ghost predicate Valid(timers: Timers.Timers)
      reads this, timers
    {
      timers.Valid()
      && (timeoutRef.Some? ==> timeoutRef.value in timers.timeouts && timers.delays[timeoutRef.value] == HoldMs)
      && (hapticRef.Some? ==> hapticRef.value in timers.intervals && timers.delays[hapticRef.value] == HapticPeriodMs)
    }

    /**
     * `onPointerDown`: scanning, a fresh 1500 ms hold timer, and a fresh
     * 100 ms buzz interval when `canVibrate`. A timer or interval the refs held before is not
     * cleared: it stays armed, no longer referenced.
     */
    method OnPointerDown(store: AppStore.Store, timers: Timers.Timers, canVibrate: bool)
      requires Visible(store.state) && Valid(timers)
      modifies this, store, timers
      ensures Valid(timers)
      ensures store.state == old(store.state).(checkoutState := Scanning)
      ensures timeoutRef == Some(old(timers.next)) && old(timers.next) !in old(timers.timeouts)
      ensures timers.timeouts == old(timers.timeouts) + {old(timers.next)}
      ensures canVibrate ==> hapticRef == Some(old(timers.next) + 1)
                             && timers.intervals == old(timers.intervals) + {old(timers.next) + 1}
                             && timers.delays == old(timers.delays)[old(timers.next) := HoldMs][old(timers.next) + 1 := HapticPeriodMs]
      ensures !canVibrate ==> hapticRef == old(hapticRef) && timers.intervals == old(timers.intervals)
                              && timers.delays == old(timers.delays)[old(timers.next) := HoldMs]
    {
      store.SetCheckoutState(Scanning);
      var h := timers.SetTimeout(HoldMs);
      timeoutRef := Some(h);
      if canVibrate {
        var i := timers.SetInterval(HapticPeriodMs);
        hapticRef := Some(i);
      }
    }

    /**
     * `onPointerUp` (also bound to pointer-leave): both refs are cleared and
     * disarmed, and a scan in progress returns to idle; any other state is
     * left as it is.
     */
    method OnPointerUp(store: AppStore.Store, timers: Timers.Timers)
      requires Visible(store.state) && Valid(timers)
      modifies this, store, timers
      ensures Valid(timers)
      ensures timeoutRef == None && hapticRef == None
      ensures timers.timeouts == old(timers.timeouts) - (if old(timeoutRef).Some? then {old(timeoutRef).value} else {})
      ensures timers.intervals == old(timers.intervals) - (if old(hapticRef).Some? then {old(hapticRef).value} else {})
      ensures old(store.state).checkoutState == Scanning ==> store.state == old(store.state).(checkoutState := Idle)
      ensures old(store.state).checkoutState != Scanning ==> store.state == old(store.state)
    {
      if timeoutRef.Some? {
        timers.ClearTimeout(timeoutRef.value);
        timeoutRef := None;
      }
      if hapticRef.Some? {
        timers.ClearInterval(hapticRef.value);
        hapticRef := None;
      }
      if store.state.checkoutState == Scanning {
        store.SetCheckoutState(Idle);
      }
    }

    /**
     * The hold timer `h` fires (only a timer still armed can): the ref is
     * cleared, checkout moves to filling, and where the Payment Request API
     * exists (`paymentApi`) the server is asked for the total. The server
     * always answers `ok`, so the early return on a refused intent never
     * happens; but the call itself can be rejected (`rejected`, a network
     * failure), and then the callback throws before it stops the buzz
     * interval, which stays armed and referenced.
     */
    method HoldTimerFires(store: AppStore.Store, timers: Timers.Timers, h: nat, paymentApi: bool, rejected: bool)
      requires Valid(timers) && h in timers.timeouts
      modifies this, store, timers
      ensures Valid(timers)
      ensures timeoutRef == None
      ensures store.state == old(store.state).(checkoutState := Filling)
      ensures timers.timeouts == old(timers.timeouts) - {h}
      // the buzz interval is stopped unless the server call was rejected
      ensures !(paymentApi && rejected) ==>
        hapticRef == None
        && timers.intervals == old(timers.intervals) - (if old(hapticRef).Some? then {old(hapticRef).value} else {})
      ensures paymentApi && rejected ==> hapticRef == old(hapticRef) && timers.intervals == old(timers.intervals)
    {
      timers.Expire(h);
      timeoutRef := None;
      store.SetCheckoutState(Filling);
      if paymentApi {
        if rejected {
          return;
        }
        var intent, _ := CheckoutAction.GeneratePaymentIntent(store.state.addedIngredients);
        if !intent.ok {
          return;
        }
      }
      if hapticRef.Some? {
        timers.ClearInterval(hapticRef.value);
        hapticRef := None;
      }
    }
  }
}
