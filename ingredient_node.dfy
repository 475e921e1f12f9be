/**
 * A draggable ingredient in the lab: dropped within 1.5 of the vessel's
 * centre it is mixed into the juice and shrinks away; dropped anywhere else
 * it floats back to where it started. Nothing stops a node that is already
 * absorbed, but not yet gone, from being picked up and dropped in again,
 * which mixes it a second time.
 */
module IngredientNode {
  import opened Wrappers
  import opened AppStore
  import Reals
  import Three

  const VesselCenter: Three.Vec3 := Three.Vec3(0.0, -0.5, 0.0)
  /** The hit radius 1.5, squared. */
  const HitRadiusSquared: real := 2.25
  const LerpSpeed: real := 12.0
  const AbsorbSpeed: real := 8.0
  const SnapScale: real := 0.01

  /** Whether a drop at `p` lands in the vessel. */
  function InVessel(p: Three.Vec3): (r: bool)
    // the vessel's own centre is a hit
    ensures p == VesselCenter ==> r
  {
    Three.DistanceSquared(p, VesselCenter) < HitRadiusSquared
  }

  /** A drop 1.5 or more from the vessel's centre along the x axis misses, whatever its y and z. */
  lemma FarAlongXMisses(p: Three.Vec3)
    requires Reals.Abs(p.x - VesselCenter.x) >= 1.5
    ensures !InVessel(p)
  {
    var dx, dy, dz := p.x - VesselCenter.x, p.y - VesselCenter.y, p.z - VesselCenter.z;
    var ax := Reals.Abs(dx);
    Reals.SquareMonotone(ax, 1.5);
    assert ax * ax == dx * dx;
    Three.SquareZero(dy);
    Three.SquareZero(dz);
    assert Three.DistanceSquared(p, VesselCenter) == dx * dx + dy * dy + dz * dz;
  }

  /** The scale after one absorbing frame: down by `8 * delta`, never below 0, snapped to 0 once tiny. */
  function ShrinkStep(scale: real, delta: real): (r: real)
    requires 0.0 <= delta
    ensures 0.0 <= r
    ensures scale >= 0.0 ==> r <= scale
    ensures scale <= SnapScale ==> r == 0.0
    ensures scale > SnapScale ==> r == Reals.Max(0.0, scale - delta * AbsorbSpeed)
  {
    if scale <= SnapScale then 0.0 else Reals.Max(0.0, scale - delta * AbsorbSpeed)
  }

  /** Absorbing frames of the given lengths in seconds, oldest first. */
  function Shrink(scale: real, deltas: seq<real>): real
    requires forall i :: 0 <= i < |deltas| ==> 0.0 <= deltas[i]
    decreases |deltas|
  {
    if deltas == [] then scale else Shrink(ShrinkStep(scale, deltas[0]), deltas[1..])
  }

  /**
   * Whatever the frame times, as long as each is at least `d`: an absorbed
   * node whose scale is at most `8 n d` is gone after `n` frames.
   */
  lemma {:induction false} ShrinkReachesZero(scale: real, d: real, deltas: seq<real>)
    requires 0.0 < d && forall i :: 0 <= i < |deltas| ==> d <= deltas[i]
    requires 0.0 <= scale <= |deltas| as real * d * AbsorbSpeed
    ensures Shrink(scale, deltas) == 0.0
    decreases |deltas|
  {
    if deltas != [] {
      var n := |deltas|;
      var next := ShrinkStep(scale, deltas[0]);
      assert next <= (n - 1) as real * d * AbsorbSpeed by {
        if scale > SnapScale {
          assert deltas[0] * AbsorbSpeed >= d * AbsorbSpeed;
          assert scale - deltas[0] * AbsorbSpeed <= n as real * d * AbsorbSpeed - d * AbsorbSpeed;
          assert n as real * d * AbsorbSpeed - d * AbsorbSpeed == (n - 1) as real * d * AbsorbSpeed;
        }
        assert 0.0 <= (n - 1) as real * d * AbsorbSpeed;
      }
      var rest := deltas[1..];
      assert forall i :: 0 <= i < |rest| ==> d <= rest[i] by {
        forall i | 0 <= i < |rest| ensures d <= rest[i] {
          assert rest[i] == deltas[i + 1];
        }
      }
      ShrinkReachesZero(next, d, rest);
    }
  }

  class Node {
    const id: string
    const color: string
    const initialPosition: Three.Vec3
    /** The container's position. */
    var pos: Three.Vec3
    var targetPos: Three.Vec3
    var isDragging: bool
    var scale: real
    var isAbsorbed: bool

    /** The scale starts at 1 and only shrinks once absorbed. */
    ghost predicate Valid()
      reads this
    {
      0.0 <= scale <= 1.0 && (!isAbsorbed ==> scale == 1.0)
    }

    constructor(id: string, color: string, initialPosition: Three.Vec3)
      ensures Valid() && this.id == id && this.color == color && this.initialPosition == initialPosition
      ensures pos == initialPosition && targetPos == initialPosition && !isDragging && !isAbsorbed
    {
      this.id := id;
      this.color := color;
      this.initialPosition := initialPosition;
      pos := initialPosition;
      targetPos := initialPosition;
      isDragging := false;
      scale := 1.0;
      isAbsorbed := false;
    }

    /** One frame of `delta` seconds: glide toward the target and, once absorbed, shrink. */
    method Frame(delta: real)
      requires Valid() && 0.0 <= delta
      modifies this
      ensures Valid()
      ensures pos == Three.Vec3Lerp(old(pos), targetPos, Three.Factor(delta, LerpSpeed))
      ensures Three.DistanceSquared(pos, targetPos) <= Three.DistanceSquared(old(pos), targetPos)
      ensures scale == (if isAbsorbed then ShrinkStep(old(scale), delta) else old(scale))
      ensures targetPos == old(targetPos) && isAbsorbed == old(isAbsorbed) && isDragging == old(isDragging)
    {
      var alpha := Three.Factor(delta, LerpSpeed);
      Three.Vec3LerpApproaches(pos, targetPos, alpha);
      pos := Three.Vec3Lerp(pos, targetPos, alpha);
      if isAbsorbed && scale <= SnapScale {
        scale := 0.0;
      } else if isAbsorbed {
        scale := Reals.Max(0.0, scale - delta * AbsorbSpeed);
      }
    }

    /** Pointer-down at `point`: the drag starts and the node heads for the pointer. */
    method PointerDown(point: Three.Vec3)
      requires Valid()
      modifies this
      ensures Valid()
      ensures isDragging && targetPos == point
      ensures pos == old(pos) && scale == old(scale) && isAbsorbed == old(isAbsorbed)
    {
      isDragging := true;
      targetPos := point;
    }

    /** Pointer-move: `hit` is where the pointer's ray meets the drag plane, if it does. */
    method PointerMove(hit: Option<Three.Vec3>)
      requires Valid()
      modifies this
      ensures Valid()
      ensures targetPos == (if old(isDragging) && hit.Some? then hit.value else old(targetPos))
      ensures isDragging == old(isDragging) && pos == old(pos) && scale == old(scale) && isAbsorbed == old(isAbsorbed)
    {
      if !isDragging {
        return;
      }
      if hit.Some? {
        targetPos := hit.value;
      }
    }

    /**
     * Pointer-up: a drop in the vessel mixes this ingredient in, once, and
     * marks the node absorbed; a drop elsewhere sends it home. Without a
     * drag nothing happens.
     */
    method PointerUp(store: AppStore.Store)
      requires Valid()
      modifies this, store
      ensures Valid()
      ensures !isDragging && pos == old(pos) && scale == old(scale)
      ensures !old(isDragging) ==>
        store.state == old(store.state) && targetPos == old(targetPos) && isAbsorbed == old(isAbsorbed)
      ensures old(isDragging) && InVessel(old(pos)) ==>
        store.state == MixOf(old(store.state), id, color) && isAbsorbed && targetPos == old(targetPos)
      ensures old(isDragging) && !InVessel(old(pos)) ==>
        store.state == old(store.state) && targetPos == initialPosition && isAbsorbed == old(isAbsorbed)
    {
      if !isDragging {
        return;
      }
      isDragging := false;
      var current := pos;
      if Three.DistanceSquared(current, VesselCenter) < HitRadiusSquared {
        store.MixIngredient(id, color);
        isAbsorbed := true;
      } else {
        targetPos := initialPosition;
      }
    }
  }

  /** Pick the node up at `grab` and let go with it in the vessel. */
  method DropIn(node: Node, store: AppStore.Store, grab: Three.Vec3)
    requires node.Valid() && InVessel(node.pos)
    modifies node, store
    ensures node.Valid() && node.isAbsorbed && node.pos == old(node.pos)
    ensures store.state == MixOf(old(store.state), node.id, node.color)
  {
    node.PointerDown(grab);
    node.PointerUp(store);
  }

  /**
   * Dropping a node in the vessel twice mixes it twice: the pointer handlers
   * never look at `isAbsorbed`, so a node still shrinking can be picked up
   * and dropped again, and its id is appended a second time.
   */
  method DropTwiceMixesTwice(node: Node, store: AppStore.Store, grab: Three.Vec3)
    requires node.Valid() && InVessel(node.pos)
    modifies node, store
    ensures node.isAbsorbed && node.Valid()
    ensures store.state == MixOf(MixOf(old(store.state), node.id, node.color), node.id, node.color)
    ensures store.state.addedIngredients == old(store.state.addedIngredients) + [node.id, node.id]
  {
    DropIn(node, store, grab);
    DropIn(node, store, grab);
  }
}
