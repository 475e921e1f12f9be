/**
 * The orb's pull gesture: press on the orb, pull downward, and release far
 * enough below the press point to dive. While the pointer is held the orb
 * squashes vertically in proportion to the pull.
 */
module OrbScene {
  import opened AppStore
  import Reals

  const PullThreshold: real := 1.5
  const SquashFactor: real := 0.1

  /** How far below the press point the pointer is: `max(0, startY - currentY)`. */
  function Pull(startY: real, currentY: real): (p: real)
    ensures p >= 0.0
    ensures currentY >= startY ==> p == 0.0
    ensures currentY < startY ==> p == startY - currentY
  {
    Reals.Max(0.0, startY - currentY)
  }

  class Orb {
    var isDragging: bool
    var startY: real
    var currentY: real

    constructor()
      ensures !isDragging && startY == 0.0 && currentY == 0.0
    {
      isDragging := false;
      startY := 0.0;
      currentY := 0.0;
    }

    /** The frame's vertical squash: the orb flattens while pulled, and is round otherwise. */
    function SquashY(): (sy: real)
      reads this
      ensures sy <= 1.0
      ensures !isDragging || currentY >= startY ==> sy == 1.0
      ensures isDragging ==> sy == 1.0 - SquashFactor * Pull(startY, currentY)
    {
      var pull := if isDragging then Pull(startY, currentY) else 0.0;
      1.0 - pull * SquashFactor
    }

    /** Pointer-down at `y`: a drag starts there, with no pull yet. */
    method PointerDown(y: real)
      modifies this
      ensures isDragging && startY == y && currentY == y
      ensures Pull(startY, currentY) == 0.0
    {
      isDragging := true;
      startY := y;
      currentY := y;
    }

    /** Pointer-move to `y`: tracked only during a drag. */
    method PointerMove(y: real)
      modifies this
      ensures isDragging == old(isDragging) && startY == old(startY)
      ensures currentY == (if old(isDragging) then y else old(currentY))
    {
      if !isDragging {
        return;
      }
      currentY := y;
    }

    /**
     * Pointer-up (or leave): ends the drag, and dives when the pull reached
     * the threshold; without a drag nothing is written. The dive is
     * requested whatever `isDiving` already is.
     */
    method PointerUp(store: AppStore.Store)
      modifies this, store
      ensures !isDragging && startY == old(startY) && currentY == old(currentY)
      ensures store.state == (if old(isDragging) && Pull(old(startY), old(currentY)) >= PullThreshold
                              then old(store.state).(isDiving := true)
                              else old(store.state))
    {
      if !isDragging {
        return;
      }
      var pull := Reals.Max(0.0, startY - currentY);
      isDragging := false;
      if pull >= PullThreshold {
        store.SetIsDiving(true);
      }
    }
  }

  /** A release less than the threshold below the press point, or above it, never dives. */
  lemma ShortPullNeverDives(startY: real, currentY: real)
    requires currentY > startY - PullThreshold
    ensures Pull(startY, currentY) < PullThreshold
  {
  }
}
