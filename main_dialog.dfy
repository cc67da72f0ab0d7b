/** The main panel (`MainDialog`): the bookkeeping it keeps for its secondary
    windows, its pin state and its persisted geometry. Widgets are identities,
    the settings file is a map and the effects on collaborators are recorded,
    in order, in `log`. */
module MainDialogModel {

  import opened Types
  import opened Geometry
  import WindowFlags
  import Settings
  import ChatRegistry
  import HoverTable
  import EditSlot

  /** Delay, in milliseconds, between persisting on close and quitting. */
  const QuitDelayMs: nat := 50

  /** Tooltip of the pin button: it names the action the next click takes. */
  function PinToolTip(pinned: bool): (s: string)
    ensures pinned <==> s == "Unstick"
    ensures !pinned <==> s == "Stick"
  {
    if pinned then "Unstick" else "Stick"
  }

  /** The four `setValue` calls that persist a geometry, in source order. */
  function GeometryWrites(g: Rect): seq<Event> {
    [ SettingWritten(Settings.KeyX, g.x), SettingWritten(Settings.KeyY, g.y),
      SettingWritten(Settings.KeyWidth, g.width), SettingWritten(Settings.KeyHeight, g.height) ]
  }

  function DisplayEvent(d: EditSlot.Display, editor: WidgetId): Event {
    match d
    case PlainShow => Shown(editor)
    case RestoreNormal => ShownNormal(editor)
  }

  /** The delete the destructor issues for the editor, if one is open. */
  function EditTeardown(slot: Option<WidgetId>): seq<Event> {
    if slot.Some? then [Deleted(slot.value)] else []
  }

  class MainDialog {
    /** Constant::MAIN_PANEL_MIN_WIDTH and Constant::TOOL_HEIGHT. */
    const minWidth: int
    const toolHeight: int

    var chatWidgets: ChatRegistry.Table
    var hoverInfos: HoverTable.Table
    var editWindow: Option<WidgetId>
    var windowFlags: WindowFlags.Flags
    /** Tooltip of the pin (TOOL_PANEL_FRONT) button. */
    var frontToolTip: string
    var settings: Settings.Store
    var geometry: Rect
    /** Where the toolbar was last placed; `None` until the first placement. */
    var toolBarGeometry: Option<Rect>
    /** The identity the next constructed widget receives. */
    var nextId: WidgetId
    var log: seq<Event>

    /** Every tracked widget was constructed by this panel and is owned by one
        entry only: no widget sits in two tables or under two items. */
    ghost predicate Valid()
      reads this`chatWidgets, this`hoverInfos, this`editWindow, this`nextId
    {
      && ChatRegistry.Injective(chatWidgets)
      && ChatRegistry.Below(chatWidgets, nextId)
      && HoverTable.Injective(hoverInfos)
      && (forall k :: k in hoverInfos ==> hoverInfos[k].id < nextId)
      && (editWindow.Some? ==> editWindow.value < nextId)
      && (forall a, b :: a in chatWidgets && b in hoverInfos ==> chatWidgets[a] != hoverInfos[b].id)
      && (editWindow.Some? ==> forall a :: a in chatWidgets ==> chatWidgets[a] != editWindow.value)
      && (editWindow.Some? ==> forall b :: b in hoverInfos ==> hoverInfos[b].id != editWindow.value)
    }

    /** Construction: empty tables, no editor, the geometry restored from the
        store, then the persisted pin state applied. */
    constructor (store: Settings.Store, initialFlags: WindowFlags.Flags,
                 screenWidth: int, screenHeight: int, minWidth: int, toolHeight: int)
      ensures Valid()
      ensures this.minWidth == minWidth && this.toolHeight == toolHeight
      ensures chatWidgets == map[] && hoverInfos == map[] && editWindow == None
      ensures nextId == 0 && toolBarGeometry == None
      ensures geometry == Settings.ReadSettings(store, screenWidth, screenHeight, minWidth).applied
      ensures var restored := Settings.ReadSettings(store, screenWidth, screenHeight, minWidth).store;
        settings == Settings.WriteTopHint(restored, Settings.TopHint(restored))
      ensures var pinned := Settings.TopHint(Settings.ReadSettings(store, screenWidth, screenHeight, minWidth).store);
        && windowFlags == WindowFlags.WithStaysOnTop(initialFlags, pinned)
        && frontToolTip == PinToolTip(pinned)
      ensures var pinned := Settings.TopHint(Settings.ReadSettings(store, screenWidth, screenHeight, minWidth).store);
        log == (if Settings.HasGeometry(store) then []
                else GeometryWrites(DefaultGeometry(screenWidth, screenHeight, minWidth)))
               + [SettingWritten(Settings.KeyTopHint, Settings.FromBool(pinned)), MainWindowShown]
    {
      this.minWidth := minWidth;
      this.toolHeight := toolHeight;
      chatWidgets := map[];
      hoverInfos := map[];
      editWindow := None;
      windowFlags := initialFlags;
      frontToolTip := "";
      settings := store;
      geometry := Rect(0, 0, 0, 0);
      toolBarGeometry := None;
      nextId := 0;
      log := [];
      new;
      ReadSettings(screenWidth, screenHeight);
      MakeWindowFront(Settings.TopHint(settings));
    }

    /** One `setValue` on the settings store. */
    method SetValue(key: string, value: int)
      modifies this`settings, this`log
      ensures settings == old(settings)[key := value]
      ensures log == old(log) + [SettingWritten(key, value)]
    {
      settings := settings[key := value];
      log := log + [SettingWritten(key, value)];
    }

    /** Restores the geometry; the screen size is what the desktop reports. */
    method ReadSettings(screenWidth: int, screenHeight: int)
      modifies this`settings, this`geometry, this`log
      ensures settings == Settings.ReadSettings(old(settings), screenWidth, screenHeight, minWidth).store
      ensures geometry == Settings.ReadSettings(old(settings), screenWidth, screenHeight, minWidth).applied
      ensures log == old(log) + (if Settings.HasGeometry(old(settings)) then []
        else GeometryWrites(DefaultGeometry(screenWidth, screenHeight, minWidth)))
    {
      if !(Settings.KeyX in settings && Settings.KeyY in settings
           && Settings.KeyWidth in settings && Settings.KeyHeight in settings)
      {
        var tmpWidth := ScaleZoomIn(minWidth);
        var tmpHeight := ScaleZoomOut(screenHeight);
        SetValue(Settings.KeyX, screenWidth - tmpWidth - PanelMargin);
        SetValue(Settings.KeyY, PanelMargin);
        SetValue(Settings.KeyWidth, tmpWidth);
        SetValue(Settings.KeyHeight, tmpHeight);
      }
      var x := Settings.Value(settings, Settings.KeyX);
      var y := Settings.Value(settings, Settings.KeyY);
      var w := Settings.Value(settings, Settings.KeyWidth);
      var h := Settings.Value(settings, Settings.KeyHeight);
      geometry := Rect(x, y, w, h);
    }

    /** Persists the current geometry, key by key. */
    method WriteSettings()
      modifies this`settings, this`log
      ensures settings == Settings.WriteGeometry(old(settings), geometry)
      ensures log == old(log) + GeometryWrites(geometry)
    {
      SetValue(Settings.KeyX, geometry.x);
      SetValue(Settings.KeyY, geometry.y);
      SetValue(Settings.KeyWidth, geometry.width);
      SetValue(Settings.KeyHeight, geometry.height);
    }

    /** Close: all four geometry keys are written before the quit is
        scheduled. */
    method CloseEvent()
      modifies this`settings, this`log
      ensures settings == Settings.WriteGeometry(old(settings), geometry)
      ensures log == old(log) + GeometryWrites(geometry) + [QuitScheduled(QuitDelayMs)]
    {
      WriteSettings();
      log := log + [QuitScheduled(QuitDelayMs)];
    }

    /** The close action of the toolbar and the tray icon. */
    method CloseWindow()
      modifies this`settings, this`log
      ensures settings == Settings.WriteGeometry(old(settings), geometry)
      ensures log == old(log) + GeometryWrites(geometry) + [QuitScheduled(QuitDelayMs)]
    {
      CloseEvent();
    }

    /** Places the toolbar from the current width and the live layout margins
        (`layout` is `None` when the panel has no layout). */
    method UpdateWidgetGeometry(layout: Option<Margins>)
      modifies this`toolBarGeometry
      ensures toolBarGeometry == Some(ToolBarGeometry(geometry.width, layout, toolHeight))
    {
      var right := 0;
      var left := 0;
      if layout.Some? {
        right := layout.value.right;
        left := layout.value.left;
      }
      toolBarGeometry := Some(Rect(left, 0, geometry.width - right * 3, toolHeight));
    }

    /** A resize to `width` by `height` (the size the resize event carries)
        keeps the position and re-derives the toolbar from the new width. */
    method ResizeEvent(width: int, height: int, layout: Option<Margins>)
      modifies this`geometry, this`toolBarGeometry
      ensures geometry == Rect(old(geometry).x, old(geometry).y, width, height)
      ensures toolBarGeometry == Some(ToolBarGeometry(width, layout, toolHeight))
    {
      geometry := Rect(geometry.x, geometry.y, width, height);
      UpdateWidgetGeometry(layout);
    }

    /** The window is moved to (`x`, `y`) by the window system. The panel has
        no handler for this; only the geometry that `WriteSettings` persists
        changes, and the toolbar, which depends on the width alone, stays. */
    method Move(x: int, y: int)
      modifies this`geometry
      ensures geometry == Rect(x, y, old(geometry).width, old(geometry).height)
    {
      geometry := Rect(x, y, geometry.width, geometry.height);
    }

    /** Pins (`flag`) or unpins the panel: the stays-on-top bit follows `flag`,
        the tooltip names the opposite action, the flag is persisted and the
        panel is shown again. */
    method MakeWindowFront(flag: bool)
      modifies this`windowFlags, this`frontToolTip, this`settings, this`log
      ensures windowFlags == WindowFlags.WithStaysOnTop(old(windowFlags), flag)
      ensures frontToolTip == PinToolTip(flag)
      ensures settings == Settings.WriteTopHint(old(settings), flag)
      ensures log == old(log) + [SettingWritten(Settings.KeyTopHint, Settings.FromBool(flag)), MainWindowShown]
    {
      var flags := windowFlags;
      if flag {
        windowFlags := flags | WindowFlags.StaysOnTopHint;
        frontToolTip := "Unstick";
      } else {
        windowFlags := flags & !WindowFlags.StaysOnTopHint;
        frontToolTip := "Stick";
      }
      SetValue(Settings.KeyTopHint, if flag then 1 else 0);
      log := log + [MainWindowShown];
    }

    /** Shows the chat window of `item`, constructing it on first request. */
    method ShowChatWindow(item: ToolItem)
      requires Valid()
      modifies this`chatWidgets, this`nextId, this`log
      ensures Valid()
      ensures var o := ChatRegistry.ShowChat(old(chatWidgets), old(nextId), item);
        && chatWidgets == o.table
        && nextId == (if o.created then old(nextId) + 1 else old(nextId))
        && log == old(log) + [Shown(o.widget)]
    {
      var widget: WidgetId;
      if item in chatWidgets {
        widget := chatWidgets[item];
      } else {
        widget := nextId;
        nextId := nextId + 1;
        chatWidgets := chatWidgets[item := widget];
      }
      log := log + [Shown(widget)];
    }

    /** Hover enter (`flag`) fades a new overlay in at `anchor` (the item's
        global position) and tracks it; hover leave stops tracking the item's
        overlay and fades it out, if there is one. */
    method ShowHoverItem(flag: bool, item: ToolItem, anchor: Point)
      requires Valid()
      modifies this`hoverInfos, this`nextId, this`log
      ensures Valid()
      ensures flag ==>
        && hoverInfos == HoverTable.ShowHover(old(hoverInfos), HoverTable.Overlay(old(nextId), anchor), item)
        && nextId == old(nextId) + 1
        && log == old(log) + [FadedIn(old(nextId), anchor)]
      ensures !flag ==> var h := HoverTable.HideHover(old(hoverInfos), item);
        && hoverInfos == h.table
        && nextId == old(nextId)
        && log == old(log) + (if h.fadedOut.Some? then [FadedOut(h.fadedOut.value.id)] else [])
    {
      if flag {
        var info := HoverTable.Overlay(nextId, anchor);
        nextId := nextId + 1;
        log := log + [FadedIn(info.id, anchor)];
        hoverInfos := hoverInfos[item := info];
      } else {
        if item in hoverInfos {
          var info := hoverInfos[item];
          hoverInfos := hoverInfos - {item};
          log := log + [FadedOut(info.id)];
        }
      }
    }

    /** Opens the personal-info editor, constructing it only when the slot is
        empty. `minimized` is what the existing editor's `isMinimized()`
        answers. */
    method ShowPersonalEditWindow(minimized: bool)
      requires Valid()
      modifies this`editWindow, this`nextId, this`log
      ensures Valid()
      ensures var o := EditSlot.Open(old(editWindow), old(nextId), minimized);
        && editWindow == o.slot
        && nextId == (if o.constructed then old(nextId) + 1 else old(nextId))
        && log == old(log) + [DisplayEvent(o.display, o.slot.value)]
    {
      var constructed := false;
      if editWindow.None? {
        editWindow := Some(nextId);
        nextId := nextId + 1;
        constructed := true;
      }
      var editor := editWindow.value;
      if !constructed && minimized {
        log := log + [ShownNormal(editor)];
      } else {
        log := log + [Shown(editor)];
      }
    }

    /** The editor's `destroyed` notification: the slot becomes empty. */
    method UpdateEditInstance()
      requires Valid()
      modifies this`editWindow
      ensures Valid()
      ensures editWindow == None
    {
      editWindow := None;
    }

    /** Teardown. Deleting the editor fires its `destroyed` notification, which
        empties the slot; then every chat window is deleted once, in the
        registry's own order `order`; then the shortcut bindings are saved. */
    method Destroy() returns (ghost order: seq<ToolItem>)
      requires Valid()
      modifies this`editWindow, this`log
      ensures Valid()
      ensures editWindow == None
      ensures ChatRegistry.Enumerates(order, chatWidgets)
      ensures log == old(log) + EditTeardown(old(editWindow))
                     + ChatRegistry.DeleteAll(order, chatWidgets) + [ShortcutsSaved]
      ensures forall w :: Deleted(w) in ChatRegistry.DeleteAll(order, chatWidgets) <==> w in chatWidgets.Values
      ensures var d := ChatRegistry.DeleteAll(order, chatWidgets);
        forall i, j :: 0 <= i < j < |d| ==> d[i] != d[j]
    {
      if editWindow.Some? {
        log := log + [Deleted(editWindow.value)];
        UpdateEditInstance();
      }
      order := DeleteChatWidgets();
      log := log + [ShortcutsSaved];
    }

    /** The destructor's loop over the chat registry: one delete per entry. */
    method DeleteChatWidgets() returns (ghost order: seq<ToolItem>)
      requires ChatRegistry.Injective(chatWidgets)
      modifies this`log
      ensures ChatRegistry.Enumerates(order, chatWidgets)
      ensures log == old(log) + ChatRegistry.DeleteAll(order, chatWidgets)
      ensures forall w :: Deleted(w) in ChatRegistry.DeleteAll(order, chatWidgets) <==> w in chatWidgets.Values
      ensures var d := ChatRegistry.DeleteAll(order, chatWidgets);
        forall i, j :: 0 <= i < j < |d| ==> d[i] != d[j]
    {
      var table := chatWidgets;
      var remaining := table.Keys;
      var events := [];
      order := [];
      while remaining != {}
        invariant remaining <= table.Keys
        invariant forall i :: 0 <= i < |order| ==> order[i] in table && order[i] !in remaining
        invariant forall k :: k in table ==> k in remaining || k in order
        invariant forall i, j :: 0 <= i < j < |order| ==> order[i] != order[j]
        invariant events == ChatRegistry.DeleteAll(order, table)
        decreases remaining
      {
        var item :| item in remaining;
        events := events + [Deleted(table[item])];
        ghost var visited := order;
        order := order + [item];
        assert order[..|order| - 1] == visited;
        remaining := remaining - {item};
      }
      log := log + events;
      ChatRegistry.DeleteAllExactlyOnce(order, chatWidgets);
    }
  }
}
