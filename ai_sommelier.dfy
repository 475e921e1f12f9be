/** The lab's sommelier panel: the current message and, once something is mixed, the PRESS BATCH button. */
module AISommelier {
  import opened Wrappers
  import opened AppStore

  /** What the panel shows: the message, and whether PRESS BATCH is offered. */
  datatype Panel = Panel(text: string, pressBatch: bool)

  /** The panel for a snapshot: only in the lab. */
  function PanelOf(s: AppState): (p: Option<Panel>)
    ensures p.Some? <==> s.activeView == Lab
    ensures p.Some? ==> p.value.text == s.aiMessage
    ensures p.Some? ==> (p.value.pressBatch <==> |s.addedIngredients| > 0)
  {
    if s.activeView != Lab then None
    else Some(Panel(s.aiMessage, |s.addedIngredients| > 0))
  }

  /**
   * After any non-empty run of drops in the lab the panel is still shown,
   * with the last mix's message, and PRESS BATCH is offered.
   */
  lemma MixesOfferPressBatch(s: AppState, drops: seq<Drop>)
    requires s.activeView == Lab && drops != []
    ensures var t := Replay(MixStep, s, drops);
      PanelOf(t) == Some(Panel(t.aiMessage, true))
  {
    var t := Replay(MixStep, s, drops);
    MixAllAppends(s, drops);
    assert t.activeView == OutsideLab(t).activeView == OutsideLab(s).activeView == Lab;
    assert |t.addedIngredients| == |s.addedIngredients| + |drops|;
  }

  /** PRESS BATCH: on to checkout, which also closes the panel. */
  method PressBatch(store: AppStore.Store)
    modifies store
    ensures store.state == old(store.state).(activeView := Checkout)
    ensures PanelOf(store.state) == None
  {
    store.SetActiveView(Checkout);
  }
}
