/** Shared vocabulary of the main-panel model: optional values, opaque widget
    identities and the log of effects the panel has on its collaborators. */
module Types {

  datatype Option<+T> = None | Some(value: T)

  /** Identity of a `ToolItem` (a contact entry in the panel's list); the source
      keys its tables by the item's pointer, so only equality matters. */
  type ToolItem = nat

  /** Identity of a secondary widget the panel constructed (chat window, hover
      overlay or personal-info editor). Fresh identities come from a counter. */
  type WidgetId = nat

  /** An on-screen position in global coordinates. */
  datatype Point = Point(x: int, y: int)

  /** What the panel does to the world outside its own fields, in order. */
  datatype Event =
    | Shown(widget: WidgetId)                 // QWidget::show()
    | ShownNormal(widget: WidgetId)           // QWidget::showNormal()
    | FadedIn(overlay: WidgetId, at: Point)   // ItemHoverInfo::fadein(pos)
    | FadedOut(overlay: WidgetId)             // ItemHoverInfo::fadeout()
    | Deleted(widget: WidgetId)               // delete
    | SettingWritten(key: string, value: int) // QSettings::setValue
    | MainWindowShown                         // show() on the panel itself
    | QuitScheduled(delayMs: nat)             // QTimer::singleShot(delay, qApp, quit)
    | ShortcutsSaved                          // ShortcutSettings::save()
}
