/** The stash's back button: shown over a close-up, it returns to the carousel view. */
module StashBackButton {
  import opened Wrappers
  import opened AppStore

  /** The button shows in the stash while a bottle is focused. */
  function Visible(s: AppState): (v: bool)
    // shown only in the stash while some bottle is in focus, and then whatever the zoom
    ensures v ==> s.activeView == Stash && s.focusedBottleIndex.Some?
    ensures s.focusedBottleIndex == None || s.activeView != Stash ==> !v
  {
    s.activeView == Stash && s.focusedBottleIndex.Some?
  }

  /** The state `handleBack` leaves: no focus, zoom 1, depth of field at rest. */
  function BackOf(s: AppState): (t: AppState)
    ensures !Visible(t)
    ensures t.focusedBottleIndex == None && t.zoomLevel == 1 && t.dofFocusDistance == 1.0
    ensures t.(focusedBottleIndex := s.focusedBottleIndex, zoomLevel := s.zoomLevel, dofFocusDistance := s.dofFocusDistance) == s
  {
    s.(focusedBottleIndex := None, zoomLevel := 1, dofFocusDistance := 1.0)
  }

  /** Going back twice is going back once. */
  lemma BackIdempotent(s: AppState)
    ensures BackOf(BackOf(s)) == BackOf(s)
  {
  }

  /**
   * `handleBack`: three setters in a row. `mid` is the snapshot after the
   * first; from a close-up it holds no focus with the zoom still above 1.
   */
  method HandleBack(store: AppStore.Store) returns (ghost mid: AppState)
    modifies store
    ensures store.state == BackOf(old(store.state))
    ensures mid == old(store.state).(focusedBottleIndex := None)
    ensures old(store.state.zoomLevel) > 1 ==> mid.focusedBottleIndex.None? && mid.zoomLevel > 1
  {
    store.SetFocusedBottleIndex(None);
    mid := store.state;
    store.SetZoomLevel(1);
    store.SetDofFocusDistance(1.0);
  }
}
