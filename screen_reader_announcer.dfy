/** The live region for screen readers: the sommelier's message followed by the checkout status. */
module ScreenReaderAnnouncer {
  import opened AppStore

  /** The status sentence of each checkout state. */
  function CheckoutLabel(c: CheckoutState): (l: string)
    ensures |l| > 0 && l[|l| - 1] == '.'
  {
    match c
    case Idle => "Checkout ready."
    case Scanning => "Scanning."
    case Filling => "Filling."
    case Draining => "Draining."
    case Complete => "Checkout complete."
  }

  /** Every state is announced differently. */
  lemma CheckoutLabelInjective(c: CheckoutState, d: CheckoutState)
    ensures CheckoutLabel(c) == CheckoutLabel(d) ==> c == d
  {
  }

  /** The announced text: the label is appended after a space when it is non-empty. */
  function Announcement(s: AppState): (t: string)
    ensures t == s.aiMessage + " " + CheckoutLabel(s.checkoutState)
  {
    var status := CheckoutLabel(s.checkoutState);
    s.aiMessage + (if status == "" then "" else " " + status)
  }

  /** Only the message and the checkout state are read. */
  lemma AnnouncementReads(s: AppState, t: AppState)
    requires s.aiMessage == t.aiMessage && s.checkoutState == t.checkoutState
    ensures Announcement(s) == Announcement(t)
  {
  }
}
