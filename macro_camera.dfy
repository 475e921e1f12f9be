/**
 * The stash's macro camera: a zoom ladder on the focused bottle. Level 1
 * leaves the camera alone, level 2 flies to a spot in front of the bottle
 * and hands over to level 3 once it is close, level 3 moves into it. With
 * no bottle focused the camera returns to its home position.
 */
module MacroCamera {
  import opened Wrappers
  import opened AppStore
  import Three

  const LerpSpeed: real := 2.5
  const ZOffsetLevel2: real := 1.2
  const ZOffsetLevel3: real := -0.3
  /** The hand-over distance 0.4, squared. */
  const Level3TriggerDistSquared: real := 0.16
  const Level3Dof: real := 0.025
  const Home: Three.Vec3 := Three.Vec3(0.0, 0.0, 5.0)

  /** The world position `(wx, wz)` of a bottle on the carousel floor. */
  datatype Floor = Floor(wx: real, wz: real)

  /** Where the camera heads at zoom level 2 or 3 for a bottle at `b`. */
  function TargetFor(b: Floor, zoom: ZoomLevel): (t: Three.Vec3)
    requires zoom != 1
    ensures t.x == b.wx && t.y == 0.0
    ensures zoom == 2 ==> t.z == b.wz + ZOffsetLevel2
    ensures zoom == 3 ==> t.z == b.wz + ZOffsetLevel3
    ensures zoom == 3 ==> t.z < TargetFor(b, 2).z
  {
    Three.Vec3(b.wx, 0.0, b.wz + (if zoom == 2 then ZOffsetLevel2 else ZOffsetLevel3))
  }

  class Rig {
    var targetPos: Three.Vec3

    constructor()
      ensures targetPos == Home
    {
      targetPos := Home;
    }

    /**
     * One frame of `delta` seconds. `bottle` is the focused bottle's world
     * position, computed by the carousel from its angle and rotation, or
     * `None` when the carousel is not mounted.
     */
    method Frame(store: AppStore.Store, camera: Three.Camera, delta: real, bottle: Option<Floor>)
      requires 0.0 <= delta
      modifies this, store, camera
      ensures camera.fov == old(camera.fov)
      // outside the stash, without a carousel, or at level 1: nothing moves
      ensures old(store.state.activeView) != Stash
              || (old(store.state.focusedBottleIndex).Some? && (bottle.None? || old(store.state.zoomLevel) == 1)) ==>
        camera.pos == old(camera.pos) && targetPos == old(targetPos) && store.state == old(store.state)
      // no bottle focused: home, and the store is not written
      ensures old(store.state.activeView) == Stash && old(store.state.focusedBottleIndex).None? ==>
        targetPos == Home && camera.pos == Three.Vec3Lerp(old(camera.pos), Home, Three.Factor(delta, LerpSpeed))
        && store.state == old(store.state)
      // level 2: fly in front of the bottle, and hand over once within 0.4
      ensures old(store.state.activeView) == Stash && old(store.state.focusedBottleIndex).Some? && bottle.Some?
              && old(store.state.zoomLevel) == 2 ==>
        targetPos == TargetFor(bottle.value, 2)
        && camera.pos == Three.Vec3Lerp(old(camera.pos), targetPos, Three.Factor(delta, LerpSpeed))
        && store.state == (if Three.DistanceSquared(camera.pos, targetPos) < Level3TriggerDistSquared
                           then old(store.state).(zoomLevel := 3, dofFocusDistance := Level3Dof)
                           else old(store.state))
      // level 3: move into the bottle, a little slower, with no store write
      ensures old(store.state.activeView) == Stash && old(store.state.focusedBottleIndex).Some? && bottle.Some?
              && old(store.state.zoomLevel) == 3 ==>
        targetPos == TargetFor(bottle.value, 3)
        && camera.pos == Three.Vec3Lerp(old(camera.pos), targetPos, Three.Factor(delta, LerpSpeed * 0.8))
        && store.state == old(store.state)
      // the camera never moves away from where it is heading
      ensures Three.DistanceSquared(camera.pos, targetPos) <= Three.DistanceSquared(old(camera.pos), targetPos)
      // level 3 is entered only from level 2 with a bottle focused
      ensures store.state.zoomLevel == 3 && old(store.state.zoomLevel) != 3 ==>
        old(store.state.zoomLevel) == 2 && old(store.state.focusedBottleIndex).Some?
    {
      var view := store.state.activeView;
      var focus := store.state.focusedBottleIndex;
      var zoom := store.state.zoomLevel;
      if view != Stash {
        return;
      }
      if focus.None? {
        targetPos := Home;
        Approach(camera, Three.Factor(delta, LerpSpeed));
        return;
      }
      if bottle.None? {
        return;
      }
      var wx, wz := bottle.value.wx, bottle.value.wz;
      if zoom == 1 {
        return;
      }
      if zoom == 2 {
        targetPos := Three.Vec3(wx, 0.0, wz + ZOffsetLevel2);
        Approach(camera, Three.Factor(delta, LerpSpeed));
        var dist2 := Three.DistanceSquared(camera.pos, targetPos);
        if dist2 < Level3TriggerDistSquared {
          store.SetZoomLevel(3);
          store.SetDofFocusDistance(Level3Dof);
        }
        return;
      }
      if zoom == 3 {
        targetPos := Three.Vec3(wx, 0.0, wz + ZOffsetLevel3);
        Approach(camera, Three.Factor(delta, LerpSpeed * 0.8));
      }
    }

    /** `camera.position.lerp(targetPos, alpha)`. */
    method Approach(camera: Three.Camera, alpha: real)
      requires 0.0 <= alpha <= 1.0
      modifies camera
      ensures camera.pos == Three.Vec3Lerp(old(camera.pos), targetPos, alpha) && camera.fov == old(camera.fov)
      ensures Three.DistanceSquared(camera.pos, targetPos) <= Three.DistanceSquared(old(camera.pos), targetPos)
    {
      Three.Vec3LerpApproaches(camera.pos, targetPos, alpha);
      camera.pos := Three.Vec3Lerp(camera.pos, targetPos, alpha);
    }
  }
}
