/** The hover-overlay table: the overlay currently tracked for each list item.
    Showing always builds a new overlay and replaces whatever was tracked;
    hiding stops tracking at once and asks the overlay to fade out. */
module HoverTable {

  import opened Types

  /** An overlay and the global position it was faded in at. */
  datatype Overlay = Overlay(id: WidgetId, anchor: Point)

  type Table = map<ToolItem, Overlay>

  ghost predicate Injective(t: Table) {
    forall a, b :: a in t && b in t && a != b ==> t[a].id != t[b].id
  }

  /** `hoverInfos.insert(item, info)` for a newly built overlay: the new
      overlay is tracked for `item`, any earlier one for it is dropped, and
      every other item keeps its overlay. */
  function ShowHover(t: Table, overlay: Overlay, item: ToolItem): (r: Table)
    ensures r.Keys == t.Keys + {item}
    ensures r[item] == overlay
    ensures forall k :: k in t && k != item ==> r[k] == t[k]
  {
    t[item := overlay]
  }

  /** The table after hiding and the overlay told to fade out, if any. */
  datatype Hidden = Hidden(table: Table, fadedOut: Option<Overlay>)

  /** `hoverInfos.value(item)` yields nothing for an absent item, which is then
      left alone; a present item is removed and its overlay faded out. */
  function HideHover(t: Table, item: ToolItem): (h: Hidden)
    ensures item !in t ==> h.table == t && h.fadedOut == None
    ensures item in t ==> h.fadedOut == Some(t[item])
    ensures h.table.Keys == t.Keys - {item}
    ensures forall k :: k in h.table ==> h.table[k] == t[k]
  {
    if item in t then Hidden(t - {item}, Some(t[item])) else Hidden(t, None)
  }

  /** A second show for an item whose overlay is still tracked replaces it:
      the earlier overlay is no longer tracked under any item (it is never
      faded out by the panel) and the newest anchor is the one recorded. */
  lemma ShowAgainForgetsEarlier(t: Table, o1: Overlay, o2: Overlay, item: ToolItem)
    requires Injective(t) && o1.id != o2.id
    requires forall k :: k in t ==> t[k].id != o1.id && t[k].id != o2.id
    ensures var r := ShowHover(ShowHover(t, o1, item), o2, item);
      && r == ShowHover(t, o2, item)
      && r[item].anchor == o2.anchor
      && forall k :: k in r ==> r[k].id != o1.id
  {
  }

  /** Showing a fresh overlay keeps every overlay owned by one item only. */
  lemma ShowHoverKeepsOwnership(t: Table, overlay: Overlay, item: ToolItem)
    requires Injective(t)
    requires forall k :: k in t ==> t[k].id != overlay.id
    ensures Injective(ShowHover(t, overlay, item))
  {
  }

  /** Hide undoes show: the overlay just shown is the one faded out and the
      table is what it was, less any earlier entry for that item. */
  lemma HideAfterShow(t: Table, overlay: Overlay, item: ToolItem)
    ensures HideHover(ShowHover(t, overlay, item), item) == Hidden(t - {item}, Some(overlay))
  {
  }

  /** Hiding twice fades out at most once: the second hide is a no-op. */
  lemma HideTwiceFadesOnce(t: Table, item: ToolItem)
    ensures var h := HideHover(t, item);
      HideHover(h.table, item) == Hidden(h.table, None)
  {
  }
}
