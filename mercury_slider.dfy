/**
 * The mercury slider: the drag that sets the vibe and the per-frame
 * material parameters of the mercury sphere. A drag is measured from where
 * it started, not from the previous move, and releasing it snaps the vibe
 * to a commit point.
 */
module MercurySlider {
  import opened Wrappers
  import opened AppStore
  import Reals
  import VibeDerivations

  /** Where a drag started: the pointer's y and the vibe at that moment. */
  datatype DragStart = DragStart(startY: real, startVibe: real)

  /** Vibe per unit of pointer travel: 40% of the viewport height spans the whole range. */
  function Sensitivity(height: real): (k: real)
    requires height > 0.0
    ensures k > 0.0 && k * (0.4 * height) == 1.0
  {
    1.0 / (height * 0.4)
  }

  /** Pointer travel from the drag start, in vibe units. */
  function Travel(d: DragStart, y: real, height: real): (t: real)
    requires height > 0.0
    ensures y == d.startY ==> t == 0.0
    ensures y - d.startY >= 0.4 * height ==> t >= 1.0
    ensures d.startY - y >= 0.4 * height ==> t <= -1.0
  {
    var k := Sensitivity(height);
    var dy := y - d.startY;
    var m := 0.4 * height;
    TravelBounds(dy, m, k);
    assert k * m == 1.0;
    dy * k
  }

  /** Travel of at least the span in either direction is at least one whole vibe unit. */
  lemma TravelBounds(dy: real, m: real, k: real)
    requires k > 0.0 && k * m == 1.0
    ensures dy == 0.0 ==> dy * k == 0.0
    ensures dy >= m ==> dy * k >= 1.0
    ensures -dy >= m ==> dy * k <= -1.0
  {
    if dy >= m {
      MulDistance(dy, m, k);
    }
    if -dy >= m {
      MulDistance(-dy, m, k);
      assert dy * k == -((-dy) * k);
    }
  }

  /** When `a >= m` and `m * k == 1` with `k > 0`, `a * k >= 1`. */
  lemma MulDistance(a: real, m: real, k: real)
    requires a >= m && k > 0.0 && k * m == 1.0
    ensures a * k >= 1.0
  {
    var e := a - m;
    assert e * k >= 0.0;
    assert a * k == e * k + m * k;
  }

  /**
   * The vibe for a pointer at `y` during the drag `d` on a viewport
   * `height` units tall: a drag of 40% of the height from the start
   * saturates the vibe, whatever it started at.
   */
  function DragVibe(d: DragStart, y: real, height: real): (v: real)
    requires height > 0.0
    ensures 0.0 <= v <= 1.0
    ensures y == d.startY && 0.0 <= d.startVibe <= 1.0 ==> v == d.startVibe
    ensures y - d.startY >= 0.4 * height && d.startVibe >= 0.0 ==> v == 1.0
    ensures d.startY - y >= 0.4 * height && d.startVibe <= 1.0 ==> v == 0.0
  {
    Reals.Clamp(d.startVibe + Travel(d, y, height), 0.0, 1.0)
  }

  /** Dragging further up never lowers the vibe. */
  lemma DragVibeMonotone(d: DragStart, y1: real, y2: real, height: real)
    requires height > 0.0 && y1 <= y2
    ensures DragVibe(d, y1, height) <= DragVibe(d, y2, height)
  {
    var k := Sensitivity(height);
    assert Travel(d, y2, height) - Travel(d, y1, height) == (y2 - y1) * k;
    assert (y2 - y1) * k >= 0.0;
  }

  class Slider {
    var dragStart: Option<DragStart>

    constructor()
      ensures dragStart == None
    {
      dragStart := None;
    }

    /** Pointer-down at height `pointerY`: the drag begins from the current vibe. */
    method PointerDown(store: AppStore.Store, pointerY: real)
      modifies this, store
      ensures store.state == old(store.state).(isDragging := true)
      ensures dragStart == Some(DragStart(pointerY, old(store.state.vibe)))
    {
      store.SetIsDragging(true);
      dragStart := Some(DragStart(pointerY, store.state.vibe));
    }

    /** Pointer-move to `pointerY`: without a drag start nothing happens. */
    method PointerMove(store: AppStore.Store, pointerY: real, viewportHeight: real)
      requires viewportHeight > 0.0
      modifies store
      ensures dragStart.None? ==> store.state == old(store.state)
      ensures dragStart.Some? ==>
        store.state == old(store.state).(vibe := DragVibe(dragStart.value, pointerY, viewportHeight))
    {
      if dragStart.None? {
        return;
      }
      var deltaY := pointerY - dragStart.value.startY;
      var sensitivity := Sensitivity(viewportHeight);
      var newVibe := Reals.Max(0.0, Reals.Min(1.0, dragStart.value.startVibe + deltaY * sensitivity));
      assert newVibe == DragVibe(dragStart.value, pointerY, viewportHeight);
      store.SetVibe(newVibe);
    }

    /** Pointer-up: the drag ends, then the vibe snaps to 0, 0.5 or 1. */
    method PointerUp(store: AppStore.Store)
      modifies this, store
      ensures dragStart == None
      ensures store.state == SnapBackOf(old(store.state).(isDragging := false))
      ensures store.state.vibe == 0.0 || store.state.vibe == 0.5 || store.state.vibe == 1.0
      ensures !store.state.isDragging
    {
      store.SetIsDragging(false);
      dragStart := None;
      store.SnapBack();
    }
  }

  /** What one frame writes to the sphere and its material. */
  datatype FrameParams = FrameParams(
    y: real, scale: real, distortion: real, distortionScale: real, temporalDistortion: real, color: string)

  /** The frame's parameters for the store snapshot `s`. */
  function ParamsOf(s: AppState): (p: FrameParams)
    ensures s.vibe == 0.5 ==> p.y == 0.0
    ensures 0.0 <= s.vibe <= 1.0 ==> -2.0 <= p.y <= 2.0
    ensures !s.isDragging ==> p.scale == 1.0
    ensures 0.0 <= s.vibe <= 1.0 ==> 1.0 <= p.scale <= 1.15
    // the warp override wins whenever it is set, even at 0
    ensures s.warpDistortion.Some? ==> p.distortion == s.warpDistortion.value
    ensures s.warpDistortion.None? ==> p.distortion == VibeDerivations.GetDistortion(s.vibe)
    // the other material parameters always follow the vibe
    ensures p.distortionScale == VibeDerivations.GetDistortionScale(s.vibe)
    ensures p.temporalDistortion == VibeDerivations.GetTemporalDistortion(s.vibe)
    ensures p.color == VibeDerivations.GetColor(s.vibe)
  {
    var v := s.vibe;
    var extremity := Reals.Abs(v - 0.5) * 2.0;
    var scale := 1.0 + (if s.isDragging then extremity * 0.15 else 0.0);
    FrameParams((v - 0.5) * 4.0, scale,
      s.warpDistortion.GetOr(VibeDerivations.GetDistortion(v)),
      VibeDerivations.GetDistortionScale(v), VibeDerivations.GetTemporalDistortion(v),
      VibeDerivations.GetColor(v))
  }
}
