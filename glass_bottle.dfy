/**
 * A glass bottle on the stash carousel: its juice colour by position, the
 * slow spin and emissive pulse of the focused bottle, the shimmer of the
 * glass, and the click that zooms in on it.
 */
module GlassBottle {
  import opened Wrappers
  import opened AppStore

  const JuiceColors: seq<string> := ["#2d5016", "#e8762b", "#4a1942"]
  const RotateSpeed: real := 0.15
  const EmissiveMin: real := 0.05
  const EmissiveMax: real := 0.35
  const ClickZoom: ZoomLevel := 2
  const ClickDof: real := 0.4

  /**
   * JavaScript's `index % 3`: truncating, so the remainder takes the sign of
   * the index, where Dafny's Euclidean `%` is never negative.
   */
  function JsRem3(a: int): (r: int)
    ensures a >= 0 ==> 0 <= r < 3 && r == a % 3
    ensures a < 0 ==> -3 < r <= 0
    ensures r == a % 3 || r == a % 3 - 3
  {
    if a >= 0 then a % 3 else -((-a) % 3)
  }

  /**
   * `JUICE_COLORS[index % 3]`: a colour for every bottle at a non-negative
   * index, and `undefined` for a negative index not divisible by 3.
   */
  function JuiceColor(index: int): (c: Option<string>)
    ensures index >= 0 ==> c == Some(JuiceColors[index % 3])
    ensures c.None? <==> JsRem3(index) < 0
  {
    var i := JsRem3(index);
    if 0 <= i then Some(JuiceColors[i]) else None
  }

  /** Around the carousel, colours repeat every three bottles and neighbours always differ. */
  lemma JuiceColorsCycle(index: nat)
    ensures JuiceColor(index + 3) == JuiceColor(index)
    ensures JuiceColor(index + 1) != JuiceColor(index)
  {
    assert (index + 3) % 3 == index % 3;
    assert (index + 1) % 3 == (index % 3 + 1) % 3;
  }

  /** The focused bottle's emissive intensity for a sine sample `s`. */
  function EmissiveAt(s: real): (e: real)
    ensures -1.0 <= s <= 1.0 ==> EmissiveMin <= e <= EmissiveMax
    ensures s == -1.0 ==> e == EmissiveMin
    ensures s == 1.0 ==> e == EmissiveMax
  {
    var t := s * 0.5 + 0.5;
    EmissiveMin + t * (EmissiveMax - EmissiveMin)
  }

  /** The glass transmission for a sine sample `s`. */
  function TransmissionAt(s: real): (tr: real)
    ensures -1.0 <= s <= 1.0 ==> 0.92 <= tr <= 1.0
  {
    0.96 + s * 0.04
  }

  class Bottle {
    const index: int
    var rotationY: real
    var emissiveIntensity: real
    var transmission: real

    constructor(index: int)
      ensures this.index == index && rotationY == 0.0
    {
      this.index := index;
      rotationY := 0.0;
      emissiveIntensity := EmissiveMin;
      transmission := 1.0;
    }

    /** Whether this is the bottle the store has in focus. */
    function IsFocused(s: AppState): (f: bool)
      ensures f ==> s.focusedBottleIndex.Some? && s.focusedBottleIndex.value == index
      ensures s.focusedBottleIndex == None ==> !f
    {
      s.focusedBottleIndex == Some(index)
    }

    /**
     * One frame of `delta` seconds; `sinPulse` and `sinShimmer` are the two
     * sines of the clock the frame samples.
     */
    method Frame(store: AppStore.Store, delta: real, sinPulse: real, sinShimmer: real)
      modifies this
      ensures rotationY == old(rotationY) + (if IsFocused(store.state) then RotateSpeed * delta else 0.0)
      ensures emissiveIntensity == (if IsFocused(store.state) then EmissiveAt(sinPulse) else old(emissiveIntensity))
      ensures transmission == TransmissionAt(sinShimmer)
      // an unfocused bottle keeps still
      ensures !IsFocused(store.state) ==> rotationY == old(rotationY) && emissiveIntensity == old(emissiveIntensity)
    {
      var isFocused := store.state.focusedBottleIndex == Some(index);
      rotationY := rotationY + (if isFocused then RotateSpeed else 0.0) * delta;
      if isFocused {
        var t := sinPulse * 0.5 + 0.5;
        emissiveIntensity := EmissiveMin + t * (EmissiveMax - EmissiveMin);
      }
      transmission := 0.96 + sinShimmer * 0.04;
    }

    /** A click focuses this bottle at zoom 2 with a shallow depth of field, whatever the zoom was. */
    method OnClick(store: AppStore.Store)
      modifies store
      ensures store.state == old(store.state).(focusedBottleIndex := Some(index), zoomLevel := ClickZoom, dofFocusDistance := ClickDof)
      ensures IsFocused(store.state)
    {
      store.SetFocusedBottleIndex(Some(index));
      store.SetZoomLevel(2);
      store.SetDofFocusDistance(0.4);
    }
  }
}
