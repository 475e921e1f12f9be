/**
 * The warp exit: while the phase is `exiting`, the distortion and chromatic
 * overrides ramp over 1.5 s from the vibe's own values to 3.0 and 0.1 with a
 * cubic ease-out, and the camera flies from z = 5 to z = 0 on a logarithmic
 * curve, shaking once it is closer than 2. The frame after the phase leaves
 * `exiting` clears both overrides.
 */
module WarpCamera {
  import opened Wrappers
  import opened AppStore
  import Reals
  import Three
  import VibeDerivations

  const WarpDurationMs: real := 1500.0
  const MaxDistortion: real := 3.0
  const MaxChromaticOffset: real := 0.1
  const FlySpeed: real := 0.6

  /** An eased ramp from `start` toward `target`, complete once `p` reaches 1. */
  function Ramp(start: real, target: real, p: real): (r: real)
    ensures p >= 1.0 ==> r == target
    ensures p == 0.0 ==> r == start
  {
    start + (target - start) * Reals.EaseOutCubic(Reals.Min(p, 1.0))
  }

  /** An upward ramp rises with progress and never passes its target. */
  lemma RampRises(start: real, target: real, p1: real, p2: real)
    requires start <= target && 0.0 <= p1 <= p2
    ensures start <= Ramp(start, target, p1) <= Ramp(start, target, p2) <= target
  {
    var t1, t2 := Reals.Min(p1, 1.0), Reals.Min(p2, 1.0);
    Reals.EaseOutCubicRange(t1);
    Reals.EaseOutCubicRange(t2);
    Reals.EaseOutCubicMonotone(t1, t2);
    var e1, e2 := Reals.EaseOutCubic(t1), Reals.EaseOutCubic(t2);
    var d := target - start;
    Reals.ScaledWithin(d, e1);
    Reals.ScaledWithin(d, e2);
    Reals.ScaledWithin(d, e2 - e1);
    var x1, x2, x3 := d * e1, d * e2, d * (e2 - e1);
    assert x2 == x1 + x3;
    assert 0.0 <= x1 <= x2 <= d;
    var r1, r2 := Ramp(start, target, p1), Ramp(start, target, p2);
    assert r1 == start + x1;
    assert r2 == start + x2;
  }

  /** The distortion override at warp progress `p` for the current vibe. */
  function WarpDistortionAt(vibe: real, p: real): (d: real)
    ensures p >= 1.0 ==> d == MaxDistortion
    ensures p == 0.0 ==> d == VibeDerivations.GetDistortion(vibe)
  {
    Ramp(VibeDerivations.GetDistortion(vibe), MaxDistortion, p)
  }

  /** The chromatic-offset override at warp progress `p` for the current vibe. */
  function WarpChromaticAt(vibe: real, p: real): (c: real)
    ensures p >= 1.0 ==> c == MaxChromaticOffset
    ensures p == 0.0 ==> c == VibeDerivations.GetChromaticOffset(vibe)
  {
    Ramp(VibeDerivations.GetChromaticOffset(vibe), MaxChromaticOffset, p)
  }

  /**
   * For a vibe in [0, 1], the warp only ever intensifies: both overrides
   * rise with progress, from the vibe's own values up to 3.0 and 0.1.
   */
  lemma WarpRampRises(vibe: real, p1: real, p2: real)
    requires 0.0 <= vibe <= 1.0 && 0.0 <= p1 <= p2
    ensures VibeDerivations.GetDistortion(vibe) <= WarpDistortionAt(vibe, p1) <= WarpDistortionAt(vibe, p2) <= MaxDistortion
    ensures VibeDerivations.GetChromaticOffset(vibe) <= WarpChromaticAt(vibe, p1) <= WarpChromaticAt(vibe, p2) <= MaxChromaticOffset
  {
    VibeDerivations.DistortionRange(vibe);
    VibeDerivations.ChromaticOffsetRange(vibe);
    RampRises(VibeDerivations.GetDistortion(vibe), MaxDistortion, p1, p2);
    RampRises(VibeDerivations.GetChromaticOffset(vibe), MaxChromaticOffset, p1, p2);
  }

  /**
   * Camera depth at fly progress `progress`: `5 * (1 - log10(1 + 9 t))` with
   * `t = min(progress, 1)`. The logarithm is a parameter of the model.
   */
  function CameraZ(progress: real, log10: real -> real): (z: real)
    // the flight is frozen once progress passes 1: later frames all sit where log10(10) puts it
    ensures 1.0 <= progress ==> z == 5.0 * (1.0 - log10(10.0))
  {
    5.0 * (1.0 - log10(1.0 + 9.0 * Reals.Min(progress, 1.0)))
  }

  /** With log10(1) = 0 and log10(10) = 1 the flight starts at z = 5 and ends at z = 0, where it stays. */
  lemma CameraZEndpoints(progress: real, log10: real -> real)
    requires log10(1.0) == 0.0 && log10(10.0) == 1.0
    ensures progress == 0.0 ==> CameraZ(progress, log10) == 5.0
    ensures progress >= 1.0 ==> CameraZ(progress, log10) == 0.0
  {
    if progress >= 1.0 {
      assert 1.0 + 9.0 * Reals.Min(progress, 1.0) == 10.0;
    }
  }

  /** The shake offset on one axis for a random draw `r` in [0, 1) at depth `z`. */
  function ShakeAt(z: real, r: real): (x: real)
    ensures z >= 2.0 ==> x == 0.0
  {
    if z < 2.0 then (r - 0.5) * ((1.0 - z / 2.0) * 0.15) else 0.0
  }

  /**
   * Below depth 2, with `r` a draw of `Math.random()` in [0, 1), the shake
   * on each axis is at most half the intensity `(1 - z/2) * 0.15` either way.
   */
  lemma ShakeBounded(z: real, r: real)
    requires 0.0 <= r < 1.0 && z < 2.0
    ensures Reals.Abs(ShakeAt(z, r)) <= (1.0 - z / 2.0) * 0.075
  {
    var k := (1.0 - z / 2.0) * 0.15;
    assert 0.0 < k;
    Reals.ScaledWithin(k, r);
    assert (r - 0.5) * k == r * k - 0.5 * k;
    assert k * r == r * k;
    assert 0.5 * k == (1.0 - z / 2.0) * 0.075;
  }

  class Rig {
    var hasTriggered: bool
    var progress: real
    var warpProgress: real
    var prevPhase: Phase

    /** Mounted with the phase of the first render. */
    constructor(phase: Phase)
      ensures !hasTriggered && progress == 0.0 && warpProgress == 0.0 && prevPhase == phase
    {
      hasTriggered := false;
      progress := 0.0;
      warpProgress := 0.0;
      prevPhase := phase;
    }

    /**
     * One frame of `delta` seconds. `rx` and `ry` are the frame's two
     * `Math.random()` draws and `log10` the logarithm.
     */
    method Frame(store: AppStore.Store, camera: Three.Camera, delta: real, rx: real, ry: real, log10: real -> real)
      requires 0.0 <= delta
      modifies this, store, camera
      ensures prevPhase == old(store.state.phase)
      ensures camera.fov == old(camera.fov)
      // outside exiting: only the frame right after leaving it writes, and only the two nulls
      ensures old(store.state.phase) != Exiting ==>
        camera.pos == old(camera.pos) && hasTriggered == old(hasTriggered)
        && progress == old(progress) && warpProgress == old(warpProgress)
        && store.state == (if old(prevPhase) == Exiting
                           then old(store.state).(warpDistortion := None, warpChromaticOffset := None)
                           else old(store.state))
      // in exiting: the accumulators restart only on the first exiting frame since mounting
      ensures old(store.state.phase) == Exiting ==>
        hasTriggered
        && warpProgress == (if old(hasTriggered) then old(warpProgress) else 0.0) + delta * 1000.0 / WarpDurationMs
        && progress == (if old(hasTriggered) then old(progress) else 0.0) + delta * FlySpeed
      ensures old(store.state.phase) == Exiting ==>
        store.state == old(store.state).(
          warpDistortion := Some(WarpDistortionAt(old(store.state.vibe), warpProgress)),
          warpChromaticOffset := Some(WarpChromaticAt(old(store.state.vibe), warpProgress)))
      ensures old(store.state.phase) == Exiting ==>
        camera.pos == Three.Vec3(ShakeAt(CameraZ(progress, log10), rx), ShakeAt(CameraZ(progress, log10), ry), CameraZ(progress, log10))
    {
      var phase := store.state.phase;
      if phase != Exiting {
        if prevPhase == Exiting {
          store.SetWarpDistortion(None);
          store.SetWarpChromaticOffset(None);
        }
        prevPhase := phase;
        return;
      }
      prevPhase := phase;
      if !hasTriggered {
        hasTriggered := true;
        progress := 0.0;
        warpProgress := 0.0;
      }
      WarpStep(store, delta);
      FlyStep(camera, delta, rx, ry, log10);
    }

    /** The warp half of an exiting frame: advance the warp clock and write both ramped overrides. */
    method WarpStep(store: AppStore.Store, delta: real)
      modifies this`warpProgress, store
      ensures warpProgress == old(warpProgress) + delta * 1000.0 / WarpDurationMs
      ensures store.state == old(store.state).(
          warpDistortion := Some(WarpDistortionAt(old(store.state.vibe), warpProgress)),
          warpChromaticOffset := Some(WarpChromaticAt(old(store.state.vibe), warpProgress)))
    {
      var vibe := store.state.vibe;
      var startD := VibeDerivations.GetDistortion(vibe);
      var startC := VibeDerivations.GetChromaticOffset(vibe);
      warpProgress := warpProgress + delta * 1000.0 / WarpDurationMs;
      store.SetWarpDistortion(Some(Ramp(startD, MaxDistortion, warpProgress)));
      store.SetWarpChromaticOffset(Some(Ramp(startC, MaxChromaticOffset, warpProgress)));
    }

    /** The flight half of an exiting frame: advance the flight and place the camera, shaken near the end. */
    method FlyStep(camera: Three.Camera, delta: real, rx: real, ry: real, log10: real -> real)
      modifies this`progress, camera
      ensures progress == old(progress) + delta * FlySpeed
      ensures camera.fov == old(camera.fov)
      ensures camera.pos == Three.Vec3(ShakeAt(CameraZ(progress, log10), rx), ShakeAt(CameraZ(progress, log10), ry), CameraZ(progress, log10))
    {
      progress := progress + delta * FlySpeed;
      var t := Reals.Min(progress, 1.0);
      var targetZ := 5.0 * (1.0 - log10(1.0 + t * 9.0));
      assert targetZ == CameraZ(progress, log10);
      if targetZ < 2.0 {
        var shakeIntensity := (1.0 - targetZ / 2.0) * 0.15;
        assert (rx - 0.5) * shakeIntensity == ShakeAt(targetZ, rx);
        assert (ry - 0.5) * shakeIntensity == ShakeAt(targetZ, ry);
        camera.pos := Three.Vec3((rx - 0.5) * shakeIntensity, (ry - 0.5) * shakeIntensity, targetZ);
      } else {
        camera.pos := Three.Vec3(0.0, 0.0, targetZ);
      }
      assert camera.pos == Three.Vec3(ShakeAt(targetZ, rx), ShakeAt(targetZ, ry), targetZ);
    }
  }
}
