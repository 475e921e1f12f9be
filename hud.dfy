/**
 * The heads-up dock: four items that switch the active view. Its highlight
 * is kept locally, so clicking the highlighted item clears the highlight
 * without navigating.
 */
module HUD {
  import opened Wrappers
  import opened AppStore
  import KeyboardNav

  datatype NavId = NavAbout | NavLab | NavStash | NavCart

  /** `NAV_ID_TO_VIEW`. */
  function ViewFor(id: NavId): (v: ActiveView)
    ensures id == NavCart <==> v == Checkout
  {
    match id
    case NavAbout => Orb
    case NavLab => Lab
    case NavStash => Stash
    case NavCart => Checkout
  }

  /** The item that selects a view: the inverse of the table. */
  function NavIdFor(v: ActiveView): (id: NavId)
  {
    match v
    case Orb => NavAbout
    case Lab => NavLab
    case Stash => NavStash
    case Checkout => NavCart
  }

  /** The table is a bijection between the four items and the four views. */
  lemma ViewForBijective(id: NavId, v: ActiveView)
    ensures NavIdFor(ViewFor(id)) == id
    ensures ViewFor(NavIdFor(v)) == v
  {
  }

  /** The dock shows after the slider is left, and not during checkout. */
  function Visible(s: AppState): (v: bool)
    // hidden on the slider and during checkout: only the three browsing views show it
    ensures v <==> s.phase == Exiting && (s.activeView == Orb || s.activeView == Stash || s.activeView == Lab)
  {
    s.phase != Input && s.activeView != Checkout
  }

  /** The highlight after clicking `item`: the same item toggles off, any other takes over. */
  function NextId(activeId: Option<NavId>, item: NavId): (next: Option<NavId>)
    ensures next.Some? <==> activeId != Some(item)
    ensures next.Some? ==> next.value == item
  {
    if activeId == Some(item) then None else Some(item)
  }

  /** Clicking the same item twice from no highlight, or from its own, comes back to where it began. */
  lemma DoubleClickRestores(activeId: Option<NavId>, item: NavId)
    requires activeId == None || activeId == Some(item)
    ensures NextId(NextId(activeId, item), item) == activeId
  {
  }

  class Dock {
    var activeId: Option<NavId>

    constructor()
      ensures activeId == None
    {
      activeId := None;
    }

    /** `handleDockClick(item)`: navigates only when the click highlights. */
    method HandleDockClick(store: AppStore.Store, item: NavId)
      modifies this, store
      ensures activeId == NextId(old(activeId), item)
      ensures store.state == (if activeId.Some? then old(store.state).(activeView := ViewFor(item)) else old(store.state))
    {
      var nextId := if activeId == Some(item) then None else Some(item);
      activeId := nextId;
      if nextId.Some? {
        store.SetActiveView(ViewFor(nextId.value));
      }
    }
  }

  /**
   * The highlight is not told when the view changes elsewhere: click "lab",
   * go back to the orb with the keyboard, then click "lab" again. The second
   * click only clears the stale highlight, and the view stays on the orb.
   */
  method StaleHighlightSwallowsClick(dock: Dock, store: AppStore.Store)
    requires dock.activeId == None
    modifies dock, store
    ensures dock.activeId == None && store.state.activeView == Orb
  {
    dock.HandleDockClick(store, NavLab);
    assert store.state.activeView == Lab && dock.activeId == Some(NavLab);
    KeyboardNav.Press(store, KeyboardNav.GoOrb);
    dock.HandleDockClick(store, NavLab);
  }
}
