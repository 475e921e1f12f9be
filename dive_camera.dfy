/**
 * The dive from the orb into the stash: while `isDiving`, the camera flies
 * forward at 12 units per second and widens its field of view; past z = -2
 * the view switches to the stash, past z = -8 the camera is reset and the
 * dive ends. Three latches make each of start, hand-off and emergence happen
 * once per dive.
 */
module DiveCamera {
  import opened AppStore
  import Reals
  import Three

  const DiveSpeed: real := 12.0
  const ZStart: real := 5.0
  const ZHandoff: real := -2.0
  const ZEmergence: real := -8.0
  const FovStart: real := 45.0
  const FovEnd: real := 120.0

  /** The field of view at depth `z`: 45 at the start, widening linearly to 120 at the emergence depth. */
  function FovAt(z: real): (fov: real)
    ensures FovStart <= fov <= FovEnd
    ensures z >= ZStart ==> fov == FovStart
    ensures z <= ZEmergence ==> fov == FovEnd
  {
    var t := Reals.Clamp((ZStart - z) / (ZStart - ZEmergence), 0.0, 1.0);
    Reals.ScaledWithin(FovEnd - FovStart, t);
    FovStart + (FovEnd - FovStart) * t
  }

  class Rig {
    var handoffDone: bool
    var emergenceDone: bool
    var diveStarted: bool

    constructor()
      ensures !handoffDone && !emergenceDone && !diveStarted
    {
      handoffDone := false;
      emergenceDone := false;
      diveStarted := false;
    }

    /** The hand-off never lags the emergence, and both belong to a started dive. */
    ghost predicate Valid()
      reads this
    {
      (emergenceDone ==> handoffDone) && (handoffDone ==> diveStarted)
    }

    /**
     * One frame of `delta` seconds. Not diving: all three latches clear and
     * nothing else is written. Diving: the first frame resets the camera to
     * z = 5, fov = 45; then z falls by 12 delta and the fov follows `FovAt`;
     * the first frame below z = -2 selects the stash, and the first frame
     * below z = -8 resets the camera and ends the dive.
     */
    method Frame(store: AppStore.Store, camera: Three.Camera, delta: real)
      requires Valid() && 0.0 <= delta
      modifies this, store, camera
      ensures Valid()
      ensures !old(store.state.isDiving) ==>
        !handoffDone && !emergenceDone && !diveStarted
        && store.state == old(store.state) && camera.pos == old(camera.pos) && camera.fov == old(camera.fov)
      ensures old(store.state.isDiving) ==> diveStarted && FovStart <= camera.fov <= FovEnd
      ensures camera.pos.x == old(camera.pos.x) && camera.pos.y == old(camera.pos.y)
      // z' is the depth after this frame's descent; the flight resumes from where it was,
      // and only the first frame of a dive restarts it at z = 5
      ensures old(store.state.isDiving) ==>
        var z' := (if old(diveStarted) then old(camera.pos.z) else ZStart) - DiveSpeed * delta;
        var handoff := !old(handoffDone) && z' < ZHandoff;
        var emerge := !old(emergenceDone) && z' < ZEmergence;
        // each latch is set on the first frame past its depth and stays set for the rest of the dive
        handoffDone == (old(handoffDone) || z' < ZHandoff)
        && emergenceDone == (old(emergenceDone) || z' < ZEmergence)
        // the camera follows the descent with the matching field of view, except on the emergence frame
        && (if emerge then camera.pos.z == ZStart && camera.fov == FovStart
            else camera.pos.z == z' && camera.fov == FovAt(z'))
        // the store is written exactly when a latch is newly set
        && store.state == old(store.state).(activeView := if handoff then Stash else old(store.state.activeView),
                                            isDiving := !emerge)
    {
      if !store.state.isDiving {
        handoffDone := false;
        emergenceDone := false;
        diveStarted := false;
        return;
      }
      if !diveStarted {
        diveStarted := true;
        camera.pos := camera.pos.(z := ZStart);
        camera.fov := FovStart;
      }
      camera.pos := camera.pos.(z := camera.pos.z - DiveSpeed * delta);
      camera.fov := FovAt(camera.pos.z);
      if camera.pos.z < ZHandoff && !handoffDone {
        handoffDone := true;
        store.SetActiveView(Stash);
      }
      if camera.pos.z < ZEmergence && !emergenceDone {
        emergenceDone := true;
        camera.pos := camera.pos.(z := ZStart);
        camera.fov := FovStart;
        store.SetIsDiving(false);
      }
    }
  }
}
