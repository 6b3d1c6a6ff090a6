/**
 * The shapes of the layout context shared by the conference page and its chat panel:
 * the widget state (chat panel visibility and the unread badge).
 */
module Layout {

  /** Chat panel visibility and the unread badge of the conference widget. */
  datatype WidgetState = WidgetState(showChat: bool, unreadMessages: int)

  /** The widget state a conference starts with. */
  function WidgetDefaultState(): (w: WidgetState)
    ensures !w.showChat && w.unreadMessages == 0
  {
    WidgetState(false, 0)
  }
}
