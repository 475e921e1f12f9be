/**
 * The liquid column on the checkout screen: while filling it rises toward
 * y = 0 and hands over to draining once above -0.5; while draining it sinks
 * toward -20 and completes the checkout once below -15. Each hand-over is
 * latched so it fires once per checkout cycle.
 */
module FluidTank {
  import opened Wrappers
  import opened AppStore
  import Reals
  import Three

  const FillTarget: real := 0.0
  const DrainTarget: real := -20.0
  const StartY: real := -15.0
  const FillSpeed: real := 4.0
  const DrainSpeed: real := 12.0
  const FillTriggerY: real := -0.5
  const DrainTriggerY: real := -15.0

  /** The mesh is rendered only once the checkout is past scanning. */
  function Mounted(c: CheckoutState): (m: bool)
    ensures m <==> c == Filling || c == Draining || c == Complete
  {
    c != Idle && c != Scanning
  }

  class Tank {
    /** `mesh.position.y`, or `None` while the mesh is not mounted. */
    var meshY: Option<real>
    var fillingTriggered: bool
    var drainingTriggered: bool

    constructor()
      ensures meshY == None && !fillingTriggered && !drainingTriggered
    {
      meshY := None;
      fillingTriggered := false;
      drainingTriggered := false;
    }

    /**
     * A render after `checkoutState` changed: in idle and scanning both
     * latches are cleared and the mesh is unmounted; otherwise a mesh not
     * yet mounted is mounted at y = -15 and a mounted one keeps its place.
     */
    method Render(c: CheckoutState)
      modifies this
      ensures !Mounted(c) ==> meshY == None && !fillingTriggered && !drainingTriggered
      ensures Mounted(c) ==> fillingTriggered == old(fillingTriggered) && drainingTriggered == old(drainingTriggered)
      ensures Mounted(c) ==> meshY == (if old(meshY).None? then Some(StartY) else old(meshY))
    {
      if !Mounted(c) {
        fillingTriggered := false;
        drainingTriggered := false;
        meshY := None;
      } else if meshY.None? {
        meshY := Some(StartY);
      }
    }

    /**
     * One frame of `delta` seconds. Filling moves y `min(1, 4 delta)` of the
     * way to 0 and, the first time y is above -0.5, sets draining; draining
     * moves y `min(1, 12 delta)` of the way to -20 and, the first time y is
     * below -15, sets complete. Other states, or no mesh, change nothing.
     */
    method Frame(store: AppStore.Store, delta: real)
      requires 0.0 <= delta
      modifies this, store
      // the column moves toward its target and never passes it
      ensures old(meshY).Some? && old(store.state.checkoutState) == Filling ==>
        meshY.Some? && Reals.Within(old(meshY).value, FillTarget, meshY.value)
      ensures old(meshY).Some? && old(store.state.checkoutState) == Draining ==>
        meshY.Some? && Reals.Within(old(meshY).value, DrainTarget, meshY.value)
      // filling: the lerp toward 0, and the hand-over to draining exactly on the first frame above -0.5
      ensures old(meshY).Some? && old(store.state.checkoutState) == Filling ==>
        var y' := Three.Lerp(old(meshY).value, FillTarget, Three.Factor(delta, FillSpeed));
        var fires := !old(fillingTriggered) && y' > FillTriggerY;
        meshY == Some(y')
        && fillingTriggered == (old(fillingTriggered) || y' > FillTriggerY)
        && drainingTriggered == old(drainingTriggered)
        && store.state == (if fires then old(store.state).(checkoutState := Draining) else old(store.state))
      // draining: the lerp toward -20, and the hand-over to complete exactly on the first frame below -15
      ensures old(meshY).Some? && old(store.state.checkoutState) == Draining ==>
        var y' := Three.Lerp(old(meshY).value, DrainTarget, Three.Factor(delta, DrainSpeed));
        var fires := !old(drainingTriggered) && y' < DrainTriggerY;
        meshY == Some(y')
        && drainingTriggered == (old(drainingTriggered) || y' < DrainTriggerY)
        && fillingTriggered == old(fillingTriggered)
        && store.state == (if fires then old(store.state).(checkoutState := Complete) else old(store.state))
      // no mesh, or any other state: nothing is written
      ensures old(meshY).None? || (old(store.state.checkoutState) != Filling && old(store.state.checkoutState) != Draining) ==>
        meshY == old(meshY) && store.state == old(store.state)
        && fillingTriggered == old(fillingTriggered) && drainingTriggered == old(drainingTriggered)
    {
      if meshY.None? {
        return;
      }
      var y := meshY.value;
      if store.state.checkoutState == Filling {
        var f := Three.Factor(delta, FillSpeed);
        Three.LerpWithin(y, FillTarget, f);
        y := Three.Lerp(y, FillTarget, f);
        meshY := Some(y);
        if !fillingTriggered && y > FillTriggerY {
          fillingTriggered := true;
          store.SetCheckoutState(Draining);
        }
        return;
      }
      if store.state.checkoutState == Draining {
        var f := Three.Factor(delta, DrainSpeed);
        Three.LerpWithin(y, DrainTarget, f);
        y := Three.Lerp(y, DrainTarget, f);
        meshY := Some(y);
        if !drainingTriggered && y < DrainTriggerY {
          drainingTriggered := true;
          store.SetCheckoutState(Complete);
        }
      }
    }
  }

  /**
   * Mounted at -15 and filling, the column rises: each frame's y is at
   * least the previous one and at most 0, so it never drops back below -15.
   */
  lemma FillRises(y: real, delta: real)
    requires StartY <= y <= FillTarget && 0.0 <= delta
    ensures var y' := Three.Lerp(y, FillTarget, Three.Factor(delta, FillSpeed)); y <= y' <= FillTarget
  {
    Three.LerpWithin(y, FillTarget, Three.Factor(delta, FillSpeed));
  }
}
