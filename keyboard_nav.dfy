/** Keyboard navigation: three visually hidden buttons that switch between the orb, the stash and the lab. */
module KeyboardNav {
  import opened AppStore

  datatype Button = GoOrb | GoStash | GoLab

  /** The buttons render once the slider is left. */
  function Renders(s: AppState): (r: bool)
    ensures r <==> s.phase == Exiting
  {
    s.phase != Input
  }

  /** The view each button selects: never checkout, and no two buttons alike. */
  function TargetOf(b: Button): (v: ActiveView)
    ensures v != Checkout
  {
    match b
    case GoOrb => Orb
    case GoStash => Stash
    case GoLab => Lab
  }

  /** No two buttons select the same view. */
  lemma TargetOfInjective(b: Button, c: Button)
    ensures TargetOf(b) == TargetOf(c) ==> b == c
  {
  }

  /** `aria-current` marks the button for the active view. */
  function AriaCurrent(b: Button, s: AppState): (r: bool)
    ensures s.activeView == Checkout ==> !r
  {
    s.activeView == TargetOf(b)
  }

  /** Exactly one button is current, except during checkout, when none is. */
  lemma OneCurrent(s: AppState)
    ensures forall b: Button, c: Button :: AriaCurrent(b, s) && AriaCurrent(c, s) ==> b == c
    ensures (exists b: Button :: AriaCurrent(b, s)) <==> s.activeView != Checkout
  {
    if s.activeView != Checkout {
      var b := (match s.activeView case Orb => GoOrb case Stash => GoStash case _ => GoLab);
      assert AriaCurrent(b, s);
    }
  }

  /** A button press sets its view and nothing else. */
  method Press(store: AppStore.Store, b: Button)
    modifies store
    ensures store.state == old(store.state).(activeView := TargetOf(b))
    ensures AriaCurrent(b, store.state)
  {
    match b
    case GoOrb => store.SetActiveView(Orb);
    case GoStash => store.SetActiveView(Stash);
    case GoLab => store.SetActiveView(Lab);
  }
}
