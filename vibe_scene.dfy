/**
 * The scene table: which scene the canvas mounts for the phase and view,
 * and whether the breathing background is behind it. Also what the
 * overlays show in the state the store starts in.
 */
module VibeScene {
  import opened AppStore
  import HUD
  import ChromaticEffect
  import BiometricPad
  import KeyboardNav

  datatype Scene = SliderScene | OrbScene | StashScene | LabScene | CheckoutScene

  /** `PhaseContent`: each scene is mounted under its own condition. */
  function ScenesFor(phase: Phase, view: ActiveView): (r: set<Scene>)
    ensures phase == Input ==> r == {SliderScene}
    ensures phase == Exiting ==> |r| == 1 && SliderScene !in r
    ensures phase == Exiting ==> (CheckoutScene in r <==> view == Checkout)
  {
    (if phase == Input then {SliderScene} else {})
    + (if phase == Exiting && view == Orb then {OrbScene} else {})
    + (if phase == Exiting && view == Stash then {StashScene} else {})
    + (if phase == Exiting && view == Lab then {LabScene} else {})
    + (if phase == Exiting && view == Checkout then {CheckoutScene} else {})
  }

  /** `SceneBackground`: everywhere but checkout, in either phase. */
  function ShowsBackground(view: ActiveView): (r: bool)
    ensures r <==> view == Orb || view == Stash || view == Lab
  {
    view != Checkout
  }

  /** The checkout scene and the breathing background are never mounted together. */
  lemma CheckoutHasNoBackground(phase: Phase, view: ActiveView)
    ensures CheckoutScene in ScenesFor(phase, view) ==> !ShowsBackground(view)
  {
  }

  /**
   * At start-up only the slider is mounted, over the background, and none
   * of the dock, the keyboard buttons, the depth of field or the pad shows.
   */
  lemma InitialScreen()
    ensures ScenesFor(Initial().phase, Initial().activeView) == {SliderScene}
    ensures ShowsBackground(Initial().activeView)
    ensures !HUD.Visible(Initial()) && !KeyboardNav.Renders(Initial())
    ensures !ChromaticEffect.ShowDoF(Initial()) && !BiometricPad.Visible(Initial())
  {
  }
}
