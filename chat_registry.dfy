/** The chat-window registry: at most one chat window per list item, created
    on first request and reused on every later one. */
module ChatRegistry {

  import opened Types

  type Table = map<ToolItem, WidgetId>

  /** Every widget in the table is owned by exactly one entry. */
  ghost predicate Injective(t: Table) {
    forall a, b :: a in t && b in t && a != b ==> t[a] != t[b]
  }

  /** Every widget in the table was constructed before `next` was handed out. */
  ghost predicate Below(t: Table, next: WidgetId) {
    forall k :: k in t ==> t[k] < next
  }

  /** What one `showChatWindow(item)` does to the registry: the table after,
      the widget that is shown, and whether it had to be constructed. */
  datatype Outcome = Outcome(table: Table, widget: WidgetId, created: bool)

  /** Look the item up; construct `newWidget` only when it is absent. */
  function ShowChat(t: Table, newWidget: WidgetId, item: ToolItem): (o: Outcome)
    ensures o.created <==> item !in t
    ensures !o.created ==> o.table == t && o.widget == t[item]
    ensures o.created ==> o.widget == newWidget
    ensures o.table.Keys == t.Keys + {item}
    ensures item in o.table && o.table[item] == o.widget
    ensures forall k :: k in t ==> o.table[k] == t[k]
  {
    if item in t then Outcome(t, t[item], false)
    else Outcome(t[item := newWidget], newWidget, true)
  }

  /** Constructing a fresh widget keeps the registry's ownership invariants. */
  lemma ShowChatKeepsOwnership(t: Table, next: WidgetId, item: ToolItem)
    requires Injective(t) && Below(t, next)
    ensures var o := ShowChat(t, next, item);
      Injective(o.table) && Below(o.table, if o.created then next + 1 else next)
  {
  }

  /** A run of `showChatWindow` calls, one per element of `items`, each fresh
      widget taking the next identity. */
  datatype Run = Run(table: Table, next: WidgetId, shown: seq<WidgetId>)

  function ShowChatAll(t: Table, next: WidgetId, items: seq<ToolItem>): (r: Run)
    ensures |r.shown| == |items|
    decreases |items|
  {
    if items == [] then Run(t, next, [])
    else
      var o := ShowChat(t, next, items[0]);
      var r := ShowChatAll(o.table, if o.created then next + 1 else next, items[1..]);
      Run(r.table, r.next, [o.widget] + r.shown)
  }

  /** The items a run asks for. */
  function Requested(items: seq<ToolItem>): set<ToolItem> {
    set x | x in items
  }

  /** Over any run of calls: every entry that existed is untouched and the
      table gains exactly the requested items. */
  lemma {:induction false} ShowChatAllGrows(t: Table, next: WidgetId, items: seq<ToolItem>)
    requires Below(t, next)
    ensures var r := ShowChatAll(t, next, items);
      && r.table.Keys == t.Keys + Requested(items)
      && (forall k :: k in t ==> r.table[k] == t[k])
      && Below(r.table, r.next)
    decreases |items|
  {
    if items != [] {
      var o := ShowChat(t, next, items[0]);
      ShowChatAllGrows(o.table, if o.created then next + 1 else next, items[1..]);
      assert Requested(items) == {items[0]} + Requested(items[1..]) by {
        assert items == [items[0]] + items[1..];
      }
    }
  }

  /** Over any run of calls, exactly one widget is constructed per entry the
      table gains. */
  lemma {:induction false} ShowChatAllCountsConstructions(t: Table, next: WidgetId, items: seq<ToolItem>)
    ensures ShowChatAll(t, next, items).next - next == |ShowChatAll(t, next, items).table| - |t|
    decreases |items|
  {
    if items != [] {
      var o := ShowChat(t, next, items[0]);
      ShowChatAllCountsConstructions(o.table, if o.created then next + 1 else next, items[1..]);
      if o.created {
        assert |o.table| == |t| + 1;
      }
    }
  }

  /** Every call of a run shows the widget the table finally holds for its
      item, so calls for the same item show the same instance. */
  lemma {:induction false} ShowChatAllShowsFinal(t: Table, next: WidgetId, items: seq<ToolItem>)
    requires Below(t, next)
    ensures var r := ShowChatAll(t, next, items);
      forall i :: 0 <= i < |items| ==> items[i] in r.table && r.shown[i] == r.table[items[i]]
    decreases |items|
  {
    if items != [] {
      var o := ShowChat(t, next, items[0]);
      var n := if o.created then next + 1 else next;
      ShowChatAllShowsFinal(o.table, n, items[1..]);
      ShowChatAllGrows(o.table, n, items[1..]);
      var r := ShowChatAll(o.table, n, items[1..]);
      var r0 := ShowChatAll(t, next, items);
      forall i | 0 <= i < |items|
        ensures items[i] in r0.table && r0.shown[i] == r0.table[items[i]]
      {
        if i > 0 {
          assert r0.shown[i] == r.shown[i - 1];
          assert items[i] == items[1..][i - 1];
        }
      }
    }
  }

  /** Any number of `showChatWindow(item)` calls with the same item construct at
      most one widget (exactly one when the item was new) and every call shows
      that same instance. */
  lemma SameItemSharesOneWidget(t: Table, next: WidgetId, item: ToolItem, n: nat)
    requires Below(t, next)
    requires n > 0
    ensures var r := ShowChatAll(t, next, seq(n, _ => item));
      && r.next == (if item in t then next else next + 1)
      && item in r.table
      && r.table[item] == (if item in t then t[item] else next)
      && forall i :: 0 <= i < n ==> r.shown[i] == r.table[item]
  {
    var items := seq(n, _ => item);
    ShowChatAllGrows(t, next, items);
    ShowChatAllCountsConstructions(t, next, items);
    ShowChatAllShowsFinal(t, next, items);
    var r := ShowChatAll(t, next, items);
    assert items[0] == item;
    assert Requested(items) == {item};
    if item !in t {
      assert |r.table| == |t| + 1 by {
        assert r.table.Keys == t.Keys + {item};
      }
    }
  }

  /** The events of tearing the registry down in the order `order`: one delete
      per entry. */
  function DeleteAll(order: seq<ToolItem>, t: Table): (d: seq<Event>)
    requires forall i :: 0 <= i < |order| ==> order[i] in t
    ensures |d| == |order|
    ensures forall i :: 0 <= i < |order| ==> d[i] == Deleted(t[order[i]])
  {
    if order == [] then []
    else DeleteAll(order[..|order| - 1], t) + [Deleted(t[order[|order| - 1]])]
  }

  /** `order` visits every key of the table once. */
  ghost predicate Enumerates(order: seq<ToolItem>, t: Table) {
    && (forall i :: 0 <= i < |order| ==> order[i] in t)
    && (forall k :: k in t ==> k in order)
    && (forall i, j :: 0 <= i < j < |order| ==> order[i] != order[j])
  }

  /** Visiting every key once deletes every widget of the registry exactly once
      and deletes nothing else, whatever the visiting order. */
  lemma {:induction false} DeleteAllExactlyOnce(order: seq<ToolItem>, t: Table)
    requires Enumerates(order, t) && Injective(t)
    ensures var d := DeleteAll(order, t);
      && (forall w :: Deleted(w) in d <==> w in t.Values)
      && (forall i, j :: 0 <= i < j < |d| ==> d[i] != d[j])
  {
    var d := DeleteAll(order, t);
    forall w
      ensures Deleted(w) in d <==> w in t.Values
    {
      if Deleted(w) in d {
        var i :| 0 <= i < |d| && d[i] == Deleted(w);
        assert t[order[i]] == w;
      }
      if w in t.Values {
        var k :| k in t && t[k] == w;
        var i :| 0 <= i < |order| && order[i] == k;
        assert d[i] == Deleted(w);
      }
    }
  }
}
