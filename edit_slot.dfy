/** The personal-info editor slot: empty, or holding the one editor window. */
module EditSlot {

  import opened Types

  /** How an editor is brought to the screen. */
  datatype Display = PlainShow | RestoreNormal

  /** What `showPersonalEditWindow` does: the slot after, whether an editor was
      constructed, and how it was displayed. */
  datatype Opened = Opened(slot: Option<WidgetId>, constructed: bool, display: Display)

  /** `minimized` is what `isMinimized()` answers for an editor already in the
      slot; a freshly constructed editor is not minimized. */
  function Open(slot: Option<WidgetId>, newEditor: WidgetId, minimized: bool): (o: Opened)
    ensures o.slot.Some?
    ensures o.constructed <==> slot.None?
    ensures slot.Some? ==> o.slot == slot
    ensures slot.None? ==> o.slot == Some(newEditor)
    ensures o.display == RestoreNormal <==> slot.Some? && minimized
  {
    var constructed := slot.None?;
    var editor := if constructed then newEditor else slot.value;
    var isMinimized := !constructed && minimized;
    Opened(Some(editor), constructed, if isMinimized then RestoreNormal else PlainShow)
  }

  /** Opening twice without the editor being destroyed in between constructs
      nothing the second time, keeps the same editor and displays it. */
  lemma OpenTwiceKeepsOneEditor(slot: Option<WidgetId>, e1: WidgetId, e2: WidgetId, m1: bool, m2: bool)
    ensures var first := Open(slot, e1, m1);
      var second := Open(first.slot, e2, m2);
      && !second.constructed
      && second.slot == first.slot
      && (second.display == RestoreNormal <==> m2)
  {
  }

  /** After the destroyed callback has cleared the slot, the next open
      constructs a fresh editor and shows it plainly. */
  lemma OpenAfterDestroyedConstructs(newEditor: WidgetId, minimized: bool)
    ensures Open(None, newEditor, minimized) == Opened(Some(newEditor), true, PlainShow)
  {
  }
}
