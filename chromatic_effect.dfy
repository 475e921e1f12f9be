/**
 * The post-processing pass: the chromatic-aberration offset, with the warp
 * override taking precedence over the vibe, and the depth-of-field pass
 * shown only for a close-up in the stash.
 */
module ChromaticEffect {
  import opened Wrappers
  import opened AppStore
  import VibeDerivations

  /** A 2-D offset, the aberration's `Vector2`. */
  datatype Offset = Offset(x: real, y: real)

  /** The offset one frame sets: `warpChromaticOffset ?? getChromaticOffset(vibe)` across, nothing vertically. */
  function OffsetOf(s: AppState): (o: Offset)
    ensures o.y == 0.0
    ensures s.warpChromaticOffset.Some? ==> o.x == s.warpChromaticOffset.value
    ensures s.warpChromaticOffset.None? ==> o.x == VibeDerivations.GetChromaticOffset(s.vibe)
  {
    Offset(s.warpChromaticOffset.GetOr(VibeDerivations.GetChromaticOffset(s.vibe)), 0.0)
  }

  /**
   * `??` tests for null, not for falsiness: an override of 0 wins even at
   * vibe 1, where the vibe alone would give the maximum offset.
   */
  lemma ZeroOverrideWins(s: AppState)
    requires s.warpChromaticOffset == Some(0.0) && s.vibe == 1.0
    ensures OffsetOf(s).x == 0.0 && VibeDerivations.GetChromaticOffset(s.vibe) > 0.0
  {
  }

  /** Whether the depth-of-field pass is mounted. */
  function ShowDoF(s: AppState): (v: bool)
    // only in the stash, and only once a bottle has pulled the focus in below 0.5
    ensures v ==> s.activeView == Stash
    ensures s.dofFocusDistance >= 0.5 ==> !v
  {
    s.activeView == Stash && s.dofFocusDistance < 0.5
  }

  /** At the reset focus distance 1 the depth of field is hidden, even in the stash. */
  lemma ResetHidesDoF(s: AppState)
    requires s.dofFocusDistance == 1.0
    ensures !ShowDoF(s)
  {
  }
}
