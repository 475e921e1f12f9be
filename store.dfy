/**
 * The single application store: one record of UI state, its setters, the
 * snap-back commit rule, the eased commit animation and the lab mix.
 *
 * The store object holds the current snapshot in `state`; every setter
 * replaces it by the old snapshot with some fields changed, which is what
 * a zustand `set` with a partial object does.
 */
module AppStore {
  import opened Wrappers
  import Reals
  import Colour
  import Mixing

  datatype Phase = Input | Exiting
  datatype ActiveView = Orb | Stash | Lab | Checkout
  type ZoomLevel = z: int | 1 <= z <= 3 witness 1
  datatype CheckoutState = Idle | Scanning | Filling | Draining | Complete

  datatype AppState = AppState(
    vibe: real,
    phase: Phase,
    activeView: ActiveView,
    isDiving: bool,
    isDragging: bool,
    // overrides written by the warp exit; `None` is the source's `null`
    warpDistortion: Option<real>,
    warpChromaticOffset: Option<real>,
    focusedBottleIndex: Option<int>,
    zoomLevel: ZoomLevel,
    dofFocusDistance: real,
    addedIngredients: seq<string>,
    fluidColor: string,
    aiMessage: string,
    checkoutState: CheckoutState)

  const Greeting := "Let's build a masterpiece. Drag an ingredient into the vessel."

  /** The record the store is created with. */
  function Initial(): (s: AppState)
    ensures s.vibe == 0.5 && s.phase == Input && s.activeView == Orb
    ensures !s.isDiving && !s.isDragging && s.warpDistortion == None && s.warpChromaticOffset == None
    ensures s.focusedBottleIndex == None && s.zoomLevel == 1 && s.dofFocusDistance == 1.0
    ensures s.addedIngredients == [] && s.checkoutState == Idle
    // an empty vessel is white and the sommelier opens with its greeting
    ensures Colour.IsLowerHexColour(s.fluidColor) && s.fluidColor == "#ffffff" && s.aiMessage == Greeting
  {
    AppState(0.5, Input, Orb, false, false, None, None, None, 1, 1.0, [], "#ffffff", Greeting, Idle)
  }

  /** `Math.max(0, Math.min(1, v))`, the clamp `setVibe` applies. */
  function Clamp01(v: real): (r: real)
    ensures 0.0 <= r <= 1.0
    ensures r == v <==> 0.0 <= v <= 1.0
    ensures v < 0.0 ==> r == 0.0
    ensures v > 1.0 ==> r == 1.0
  {
    Reals.Clamp(v, 0.0, 1.0)
  }

  // ---------------------------------------------------------------------------
  // snapBack
  // ---------------------------------------------------------------------------

  /**
   * `snapBack`: above 0.8 the vibe commits to 1 and the phase to exiting,
   * below 0.2 to 0 and exiting; anywhere else (0.2 and 0.8 included) it
   * returns to the neutral 0.5 and the phase is left alone.
   */
  function SnapBackOf(s: AppState): (t: AppState)
    ensures t.vibe == 1.0 <==> s.vibe > 0.8
    ensures t.vibe == 0.0 <==> s.vibe < 0.2
    ensures t.vibe == 0.5 <==> 0.2 <= s.vibe <= 0.8
    ensures t.phase == Exiting <==> s.vibe > 0.8 || s.vibe < 0.2 || s.phase == Exiting
    // nothing but vibe and phase changes
    ensures t.(vibe := s.vibe, phase := s.phase) == s
  {
    if s.vibe > 0.8 then s.(vibe := 1.0, phase := Exiting)
    else if s.vibe < 0.2 then s.(vibe := 0.0, phase := Exiting)
    else s.(vibe := 0.5)
  }

  /** The thresholds themselves are neutral: 0.8 and 0.2 both return to 0.5 without exiting. */
  lemma SnapBackBoundaries(s: AppState)
    requires s.vibe == 0.8 || s.vibe == 0.2
    ensures SnapBackOf(s) == s.(vibe := 0.5)
  {
  }

  /** Snapping back a second time changes nothing. */
  lemma SnapBackIdempotent(s: AppState)
    ensures SnapBackOf(SnapBackOf(s)) == SnapBackOf(s)
  {
  }

  // ---------------------------------------------------------------------------
  // commitVibe
  // ---------------------------------------------------------------------------

  const CommitDurationMs: real := 400.0

  /**
   * The vibe written by the `commitVibe` animation `elapsed` milliseconds
   * after it started: `start + (target - start) * eased`, with the cubic
   * ease-out of `min(elapsed / 400, 1)`.
   */
  function CommitSample(start: real, target: real, elapsed: real): (v: real)
    ensures elapsed == 0.0 ==> v == start
    ensures elapsed >= CommitDurationMs ==> v == target
  {
    start + (target - start) * Reals.EaseOutCubic(Reals.Min(elapsed / CommitDurationMs, 1.0))
  }

  /** From the moment the animation starts, every sample lies between start and target. */
  lemma CommitSampleWithin(start: real, target: real, elapsed: real)
    requires elapsed >= 0.0
    ensures Reals.Within(start, target, CommitSample(start, target, elapsed))
  {
    var t := Reals.Min(elapsed / CommitDurationMs, 1.0);
    Reals.EaseOutCubicRange(t);
    Reals.StepWithin(start, target, Reals.EaseOutCubic(t));
  }

  /** A later sample is never farther from the target: it lies between the earlier one and the target. */
  lemma CommitSampleApproaches(start: real, target: real, e1: real, e2: real)
    requires 0.0 <= e1 <= e2
    ensures Reals.Within(CommitSample(start, target, e1), target, CommitSample(start, target, e2))
  {
    var t1 := Reals.Min(e1 / CommitDurationMs, 1.0);
    var t2 := Reals.Min(e2 / CommitDurationMs, 1.0);
    assert t1 <= t2;
    Reals.EaseOutCubicMonotone(t1, t2);
    Reals.EaseOutCubicRange(t1);
    Reals.EaseOutCubicRange(t2);
    var a, b := Reals.EaseOutCubic(t1), Reals.EaseOutCubic(t2);
    var d := target - start;
    if d >= 0.0 {
      Reals.ScaledWithin(d, b - a);
      Reals.ScaledWithin(d, 1.0 - b);
      assert d * (b - a) + d * (1.0 - b) == target - (start + d * a);
    } else {
      Reals.ScaledWithin(-d, b - a);
      Reals.ScaledWithin(-d, 1.0 - b);
      assert (-d) * (b - a) + (-d) * (1.0 - b) == (start + d * a) - target;
    }
    assert CommitSample(start, target, e1) == start + d * a;
    assert CommitSample(start, target, e2) == start + d * a + d * (b - a);
  }

  // ---------------------------------------------------------------------------
  // mixIngredient
  // ---------------------------------------------------------------------------

  /** Weight the newest ingredient gets in the liquid's colour. */
  const MixWeight: real := 0.35

  /**
   * `mixIngredient(id, color)`: the id is appended, the liquid colour moves
   * 35% of the way toward the ingredient's colour, and the sommelier's
   * message is chosen from the list before the append plus the new id.
   */
  function MixOf(s: AppState, id: string, color: string): (t: AppState)
    ensures t.addedIngredients == s.addedIngredients + [id]
    ensures t.fluidColor == Mixing.BlendColors(s.fluidColor, color, MixWeight)
    ensures Colour.IsLowerHexColour(t.fluidColor)
    // each channel of the new liquid lies between the old liquid's and the ingredient's
    ensures var c0, c1, c := Colour.HexToRgb(s.fluidColor), Colour.HexToRgb(color), Colour.HexToRgb(t.fluidColor);
      Mixing.Between(c0.r, c1.r, c.r) && Mixing.Between(c0.g, c1.g, c.g) && Mixing.Between(c0.b, c1.b, c.b)
    ensures t.aiMessage == Mixing.GetMessageForMix(s.addedIngredients, id)
    // nothing but the lab's three fields changes
    ensures t.(addedIngredients := s.addedIngredients, fluidColor := s.fluidColor, aiMessage := s.aiMessage) == s
  {
    Mixing.BlendStaysBetween(s.fluidColor, color, MixWeight);
    s.(addedIngredients := s.addedIngredients + [id],
       fluidColor := Mixing.BlendColors(s.fluidColor, color, MixWeight),
       aiMessage := Mixing.GetMessageForMix(s.addedIngredients, id))
  }

  /** One drop into the vessel: the ingredient's id and its colour. */
  datatype Drop = Drop(id: string, color: string)

  function Ids(drops: seq<Drop>): (ids: seq<string>)
    ensures |ids| == |drops| && forall i :: 0 <= i < |drops| ==> ids[i] == drops[i].id
  {
    if drops == [] then [] else [drops[0].id] + Ids(drops[1..])
  }

  /** One mix as a step over drops. */
  function MixStep(s: AppState, d: Drop): AppState {
    MixOf(s, d.id, d.color)
  }

  /** A run of steps, oldest drop first. */
  function Replay(step: (AppState, Drop) -> AppState, s: AppState, drops: seq<Drop>): AppState
    decreases |drops|
  {
    if drops == [] then s else Replay(step, step(s, drops[0]), drops[1..])
  }

  /** The record with the lab's three fields blanked: everything a mix must leave alone. */
  function OutsideLab(s: AppState): AppState {
    s.(addedIngredients := [], fluidColor := "", aiMessage := "")
  }

  /** A step that appends the drop's id and changes nothing outside the lab's three fields. */
  ghost predicate AppendsOnly(step: (AppState, Drop) -> AppState) {
    AppendsId(step) && KeepsOutsideLab(step)
  }

  /** A step that appends the drop's id to the list. */
  ghost predicate AppendsId(step: (AppState, Drop) -> AppState) {
    forall t: AppState, d: Drop :: step(t, d).addedIngredients == t.addedIngredients + [d.id]
  }

  /** A step that changes nothing outside the lab's three fields. */
  ghost predicate KeepsOutsideLab(step: (AppState, Drop) -> AppState) {
    forall t: AppState, d: Drop :: OutsideLab(step(t, d)) == OutsideLab(t)
  }

  lemma ReplayAppends(step: (AppState, Drop) -> AppState, s: AppState, drops: seq<Drop>)
    requires AppendsOnly(step)
    ensures Replay(step, s, drops).addedIngredients == s.addedIngredients + Ids(drops)
    ensures OutsideLab(Replay(step, s, drops)) == OutsideLab(s)
  {
    ReplayAppendsIds(step, s, drops);
    ReplayKeepsOutsideLab(step, s, drops);
  }

  lemma {:induction false} ReplayAppendsIds(step: (AppState, Drop) -> AppState, s: AppState, drops: seq<Drop>)
    requires AppendsId(step)
    ensures Replay(step, s, drops).addedIngredients == s.addedIngredients + Ids(drops)
    decreases |drops|
  {
    if drops != [] {
      var d, rest := drops[0], drops[1..];
      var s1 := step(s, d);
      assert s1.addedIngredients == s.addedIngredients + [d.id];
      assert Replay(step, s, drops) == Replay(step, s1, rest);
      ReplayAppendsIds(step, s1, rest);
      var ids := Ids(rest);
      assert (s.addedIngredients + [d.id]) + ids == s.addedIngredients + ([d.id] + ids);
    }
  }

  lemma {:induction false} ReplayKeepsOutsideLab(step: (AppState, Drop) -> AppState, s: AppState, drops: seq<Drop>)
    requires KeepsOutsideLab(step)
    ensures OutsideLab(Replay(step, s, drops)) == OutsideLab(s)
    decreases |drops|
  {
    if drops != [] {
      var s1 := step(s, drops[0]);
      assert OutsideLab(s1) == OutsideLab(s);
      assert Replay(step, s, drops) == Replay(step, s1, drops[1..]);
      ReplayKeepsOutsideLab(step, s1, drops[1..]);
    }
  }

  lemma MixStepAppendsOnly()
    ensures AppendsOnly(MixStep)
  {
    forall t: AppState, d: Drop
      ensures MixStep(t, d).addedIngredients == t.addedIngredients + [d.id]
      ensures OutsideLab(MixStep(t, d)) == OutsideLab(t)
    {
      var u := MixOf(t, d.id, d.color);
    }
  }

  /**
   * The ingredient list is append-only: after any run of mixes it is the old
   * list followed by the dropped ids in order, duplicates kept, and no field
   * outside the lab's three changes.
   */
  lemma MixAllAppends(s: AppState, drops: seq<Drop>)
    ensures Replay(MixStep, s, drops).addedIngredients == s.addedIngredients + Ids(drops)
    ensures OutsideLab(Replay(MixStep, s, drops)) == OutsideLab(s)
  {
    MixStepAppendsOnly();
    ReplayAppends(MixStep, s, drops);
  }

  /**
   * Kale then beet into an empty vessel (the fresh store's, say) gives the
   * beet+kale message: the pair rule does not care which came first.
   */
  lemma KaleThenBeet(s: AppState)
    requires s.addedIngredients == []
    ensures var t := MixOf(MixOf(s, "kale", "#1A4B22"), "beet", "#7A003C");
      t.addedIngredients == ["kale", "beet"] && t.aiMessage == Mixing.BoldChoice
  {
    var s1 := MixOf(s, "kale", "#1A4B22");
    assert s1.addedIngredients == [] + ["kale"] == ["kale"];
    var t := MixOf(s1, "beet", "#7A003C");
    assert t.aiMessage == Mixing.GetMessageForMix(["kale"], "beet");
    assert t.addedIngredients == ["kale"] + ["beet"] == ["kale", "beet"];
    Mixing.BoldChoiceEitherOrder();
  }

  /**
   * Charcoal (`#111111`) into the fresh white vessel: 65% of 255 plus 35% of
   * 17 is 171.7 per channel, which rounds to 172 and prints as `#acacac`; the
   * list is `["charcoal"]` and the sommelier gives charcoal's own note.
   */
  lemma CharcoalIntoFreshVessel(s: AppState)
    requires s.addedIngredients == [] && s.fluidColor == "#ffffff"
    ensures var t := MixOf(s, "charcoal", "#111111");
      t.fluidColor == "#acacac" && t.addedIngredients == ["charcoal"] && t.aiMessage == Mixing.CharcoalNote
  {
    Mixing.WhiteTowardCharcoal();
    assert !Mixing.PairRuleApplies([] + ["charcoal"]);
  }

  // ---------------------------------------------------------------------------
  // The store object
  // ---------------------------------------------------------------------------

  class Store {
    /** The current snapshot, what `getState()` returns. */
    var state: AppState

    constructor()
      ensures state == Initial()
    {
      state := Initial();
    }

    /** `setVibe(v)`: the stored vibe is always in [0, 1], whatever `v` is. */
    method SetVibe(v: real)
      modifies this
      ensures state == old(state).(vibe := Clamp01(v))
      ensures 0.0 <= state.vibe <= 1.0
    {
      state := state.(vibe := Clamp01(v));
    }

    method SetPhase(p: Phase)
      modifies this
      ensures state == old(state).(phase := p)
    {
      state := state.(phase := p);
    }

    method SetActiveView(v: ActiveView)
      modifies this
      ensures state == old(state).(activeView := v)
    {
      state := state.(activeView := v);
    }

    method SetIsDiving(d: bool)
      modifies this
      ensures state == old(state).(isDiving := d)
    {
      state := state.(isDiving := d);
    }

    method SetIsDragging(d: bool)
      modifies this
      ensures state == old(state).(isDragging := d)
    {
      state := state.(isDragging := d);
    }

    method SetWarpDistortion(v: Option<real>)
      modifies this
      ensures state == old(state).(warpDistortion := v)
    {
      state := state.(warpDistortion := v);
    }

    method SetWarpChromaticOffset(v: Option<real>)
      modifies this
      ensures state == old(state).(warpChromaticOffset := v)
    {
      state := state.(warpChromaticOffset := v);
    }

    method SetFocusedBottleIndex(i: Option<int>)
      modifies this
      ensures state == old(state).(focusedBottleIndex := i)
    {
      state := state.(focusedBottleIndex := i);
    }

    method SetZoomLevel(z: ZoomLevel)
      modifies this
      ensures state == old(state).(zoomLevel := z)
    {
      state := state.(zoomLevel := z);
    }

    method SetDofFocusDistance(d: real)
      modifies this
      ensures state == old(state).(dofFocusDistance := d)
    {
      state := state.(dofFocusDistance := d);
    }

    method SetCheckoutState(c: CheckoutState)
      modifies this
      ensures state == old(state).(checkoutState := c)
    {
      state := state.(checkoutState := c);
    }

    /** `snapBack`, through the store's own `setVibe` and `setPhase`. */
    method SnapBack()
      modifies this
      ensures state == SnapBackOf(old(state))
    {
      if state.vibe > 0.8 {
        SetVibe(1.0);
        SetPhase(Exiting);
      } else if state.vibe < 0.2 {
        SetVibe(0.0);
        SetPhase(Exiting);
      } else {
        SetVibe(0.5);
      }
    }

    method MixIngredient(id: string, color: string)
      modifies this
      ensures state == MixOf(old(state), id, color)
    {
      var nextIngredients := state.addedIngredients + [id];
      var nextColor := Mixing.BlendColors(state.fluidColor, color, MixWeight);
      var nextMessage := Mixing.GetMessageForMix(state.addedIngredients, id);
      state := state.(addedIngredients := nextIngredients, fluidColor := nextColor, aiMessage := nextMessage);
    }
  }

  /**
   * One `commitVibe(target)` run: the start vibe and start time are captured
   * when it is called, and each animation frame writes the eased sample.
   * `performance.now()` is the `now` argument of each frame.
   */
  class CommitAnimation {
    const start: real
    const target: real
    const startTime: real

    constructor(store: Store, target: real, now: real)
      ensures start == store.state.vibe && this.target == target && startTime == now
    {
      start := store.state.vibe;
      this.target := target;
      startTime := now;
    }

    /** One frame: write the sample and ask for another frame while the 400 ms are not over. */
    method Frame(store: Store, now: real) returns (again: bool)
      modifies store
      ensures store.state == old(store.state).(vibe := CommitSample(start, target, now - startTime))
      ensures again <==> now - startTime < CommitDurationMs
      ensures !again ==> store.state.vibe == target
    {
      var elapsed := now - startTime;
      var t := Reals.Min(elapsed / CommitDurationMs, 1.0);
      store.state := store.state.(vibe := start + (target - start) * Reals.EaseOutCubic(t));
      again := t < 1.0;
    }
  }
}
