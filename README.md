# RimClient main panel: a Dafny model of `MainDialog`

This project models the bookkeeping of the chat client's main panel,
`MainDialog`, in `RimClient/Widgets/maindialog.cpp`:

- the **chat-window registry** (`chatWidgets`). Each list item (`ToolItem`) maps
  to one chat window. The window is created on the first request and reused
  afterwards. The destructor deletes every entry;
- the **hover-overlay table** (`hoverInfos`). Hover enter always builds and
  tracks a new overlay, replacing any earlier one for the item. Hover leave
  stops tracking the item's overlay and fades it out;
- the **edit-window slot** (`editWindow`). It holds the personal-info editor
  or nothing. The editor is constructed only when the slot is empty, and its
  `destroyed` notification empties the slot;
- the **pin toggle** (`makeWindowFront`). It sets or clears the stays-on-top
  window flag and leaves every other flag bit alone. It also updates the pin
  button's tooltip and persists `Main/topHint`;
- **geometry persistence** (`readSettings`, `writeSettings`, `closeEvent`,
  `updateWidgetGeometry`):
  - missing keys are replaced by first-run defaults;
  - closing persists before the quit is scheduled;
  - the toolbar rectangle is derived from the current width and the layout margins.

Widgets are opaque identities (`WidgetId`). A counter hands out a fresh
identity to each constructed widget, so "constructed" means the counter
moved. The settings file is a `map<string, int>`. The window flags are a
`bv32`. Most effects on collaborators go, in order, into the `log` field as
`Event`s: show, showNormal, fade in/out, delete, setValue, the quit timer and
saving the shortcuts. Three effects are fields instead: the pin button's
tooltip (`frontToolTip`), the toolbar rectangle (`toolBarGeometry`) and the
construction of widgets (the `nextId` counter).

Files and modules:

| file | module | contents |
|---|---|---|
| types.dfy | `Types` | `Option`, identities, `Point`, `Event` |
| geometry.dfy | `Geometry` | rectangles, the scale factors, default and toolbar geometry |
| window_flags.dfy | `WindowFlags` | the stays-on-top bit |
| settings.dfy | `Settings` | settings keys, geometry read/write, round trip |
| chat_registry.dfy | `ChatRegistry` | create-or-reuse, runs of calls, teardown |
| hover_table.dfy | `HoverTable` | show/hide of overlays |
| edit_slot.dfy | `EditSlot` | the editor slot |
| main_dialog.dfy | `MainDialogModel` | class `MainDialog`, whose methods update its fields in place |

Each state-changing method of `MainDialog` states its new fields and log
as a function of the old ones. Those functions live in the pure modules,
and the lemmas there state what the source promises about them.

Two points of the code worth noting:

- A second hover show for the same item builds a new overlay, and
  `QMap::insert` replaces the tracked one. The newest overlay and anchor win,
  and the earlier overlay is no longer tracked or faded out by the panel
  (`HoverTable.ShowAgainForgetsEarlier`).
- The destructor deletes the editor, and that delete fires the editor's
  `destroyed` notification while the panel is still connected. So the slot is
  emptied during teardown (`MainDialog.Destroy`). Hover overlays are not
  deleted by the destructor.

## Model

| member | source | states |
|---|---|---|
| `Geometry.ScaleZoomIn` | RimClient/Widgets/maindialog.cpp:304 | `int(v * 1.2)` truncated toward zero, bracketed exactly: 5r ≤ 6v < 5r + 5 for v ≥ 0, mirrored for v < 0 |
| `Geometry.ScaleZoomOut` | RimClient/Widgets/maindialog.cpp:305 | `int(v * 0.75)` truncated toward zero: 4r ≤ 3v < 4r + 4 for v ≥ 0, mirrored for v < 0 |
| `Geometry.DefaultGeometry` | RimClient/Widgets/maindialog.cpp:302-311 | first-run geometry: y is the 20-pixel margin, the right edge sits 20 pixels in from the screen's right edge, width is 1.2·minWidth and height 0.75·screenHeight (truncated) |
| `Geometry.ToolBarGeometry` | RimClient/Widgets/maindialog.cpp:119-128 | toolbar at (left margin, 0), height TOOL_HEIGHT, width = window width − 3·right margin; margins count as 0 without a layout |
| `Geometry.ToolBarInsideWindow` | RimClient/Widgets/maindialog.cpp:128 | the toolbar lies inside the window width when left ≤ 3·right, and spans the whole width when there are no horizontal margins |
| `WindowFlags.WithStaysOnTop` | RimClient/Widgets/maindialog.cpp:138-147 | the resulting stays-on-top bit equals the flag, and the flags with that bit masked out are unchanged |
| `WindowFlags.OtherBitsUnchanged` | RimClient/Widgets/maindialog.cpp:142-147 | bit by bit: bit 18 becomes the flag and every other bit keeps its value |
| `WindowFlags.PinRoundTrip` | RimClient/Widgets/maindialog.cpp:136-153 | pinning then restoring the old pin state gives back the original flags; setting twice equals setting once |
| `Settings.Value` | RimClient/Widgets/maindialog.cpp:314-317 | `value(key).toInt()`: the stored integer, or 0 for a missing key |
| `Settings.TopHint` | RimClient/Widgets/maindialog.cpp:264 | `value("Main/topHint").toBool()`: false for a missing key, otherwise true exactly when the stored integer is non-zero |
| `Settings.HasGeometry` | RimClient/Widgets/maindialog.cpp:299-300 | the validity test: true exactly when all four keys `Main/x`, `Main/y`, `Main/width`, `Main/height` are present |
| `Settings.WriteGeometry` | RimClient/Widgets/maindialog.cpp:325-328 | afterwards all four geometry keys are present and describe the written rectangle |
| `Settings.WriteTopHint` | RimClient/Widgets/maindialog.cpp:151 | afterwards the pin state read back from the store is the written flag |
| `Settings.ReadSettings` | RimClient/Widgets/maindialog.cpp:295-320 | a store that already holds all four keys is kept as it is; afterwards the store holds all four keys and the applied geometry is exactly what they describe |
| `Settings.WriteGeometryReadsBack` | RimClient/Widgets/maindialog.cpp:322-328 | afterwards all four geometry keys are present and read back as the written rectangle; other keys are untouched |
| `Settings.WriteTopHintReadsBack` | RimClient/Widgets/maindialog.cpp:151 | afterwards `Main/topHint` reads back as the flag; other keys are untouched |
| `Settings.ReadSettingsRestores` | RimClient/Widgets/maindialog.cpp:295-320 | if all four keys exist the store is untouched; otherwise all four are overwritten with the defaults; either way the applied geometry equals the four stored values |
| `Settings.ReadSettingsIdempotent` | RimClient/Widgets/maindialog.cpp:299-312 | a second read changes neither the store nor the applied geometry (defaults are written once) |
| `Settings.WriteThenReadGeometry` | RimClient/Widgets/maindialog.cpp:295-329 | round trip: after writing geometry g, the next read applies exactly g and rewrites nothing, whatever the screen |
| `Settings.GeometryAndTopHintIndependent` | RimClient/Widgets/maindialog.cpp:322-328 | persisting the geometry does not change the pin state, and persisting the pin state does not change the geometry |
| `ChatRegistry.ShowChat` | RimClient/Widgets/maindialog.cpp:156-172 | an existing item: table unchanged and its widget is shown; a new item: exactly one entry added, holding the fresh widget, with every other entry untouched |
| `ChatRegistry.ShowChatKeepsOwnership` | RimClient/Widgets/maindialog.cpp:166-168 | a fresh widget keeps every chat widget owned by exactly one item |
| `ChatRegistry.ShowChatAll` | RimClient/Widgets/maindialog.cpp:156-172 | a run of calls shows one widget per call |
| `ChatRegistry.ShowChatAllGrows` | RimClient/Widgets/maindialog.cpp:159-169 | over any run of calls the table gains exactly the requested items and no existing entry changes |
| `ChatRegistry.ShowChatAllCountsConstructions` | RimClient/Widgets/maindialog.cpp:164-169 | over any run of calls, the number of widgets constructed equals the number of entries added |
| `ChatRegistry.ShowChatAllShowsFinal` | RimClient/Widgets/maindialog.cpp:159-171 | every call of a run shows the widget the table finally holds for its item |
| `ChatRegistry.SameItemSharesOneWidget` | RimClient/Widgets/maindialog.cpp:160-171 | n ≥ 1 calls for one item construct exactly one widget if the item was new (none otherwise), and every call shows that same instance |
| `ChatRegistry.DeleteAll` | RimClient/Widgets/maindialog.cpp:83-88 | teardown in a given order issues one delete per visited entry, of that entry's widget |
| `ChatRegistry.DeleteAllExactlyOnce` | RimClient/Widgets/maindialog.cpp:81-89 | visiting every key once deletes exactly the registry's widgets, each exactly once, in any order |
| `HoverTable.ShowHover` | RimClient/Widgets/maindialog.cpp:177-182 | the new overlay is tracked for the item (replacing any earlier one) and every other item keeps its overlay |
| `HoverTable.HideHover` | RimClient/Widgets/maindialog.cpp:183-191 | an absent item: no-op and nothing faded out; a present item: only that key removed and its overlay faded out |
| `HoverTable.ShowAgainForgetsEarlier` | RimClient/Widgets/maindialog.cpp:179-181 | a second show replaces the first: the newest anchor is tracked and the earlier overlay is tracked under no item |
| `HoverTable.ShowHoverKeepsOwnership` | RimClient/Widgets/maindialog.cpp:179-181 | a fresh overlay keeps every tracked overlay owned by one item |
| `HoverTable.HideAfterShow` | RimClient/Widgets/maindialog.cpp:174-192 | hide after show fades out exactly the overlay just shown and leaves the table as before, less that item |
| `HoverTable.HideTwiceFadesOnce` | RimClient/Widgets/maindialog.cpp:185-190 | a second hide is a no-op |
| `EditSlot.Open` | RimClient/Widgets/maindialog.cpp:194-210 | an editor is constructed only when the slot is empty; afterwards the slot is full; showNormal exactly when an existing editor is minimized, otherwise show |
| `EditSlot.OpenTwiceKeepsOneEditor` | RimClient/Widgets/maindialog.cpp:197-209 | opening twice constructs nothing the second time and keeps the same editor |
| `EditSlot.OpenAfterDestroyedConstructs` | RimClient/Widgets/maindialog.cpp:197-216 | after the slot is cleared, the next open constructs a fresh editor and shows it plainly |
| `MainDialogModel.PinToolTip` | RimClient/Widgets/maindialog.cpp:140-149 | "Unstick" exactly when pinned, "Stick" exactly when not |
| `MainDialogModel.MainDialog.constructor` | RimClient/Widgets/maindialog.cpp:59-71 | empty tables and slot (:59-71); geometry restored by the settings read that `initWidget` performs at :251; the persisted pin state read at :264 applied to flags, tooltip and store |
| `MainDialogModel.MainDialog.SetValue` | RimClient/Widgets/maindialog.cpp:151 | `QSettings::setValue`: the store maps the key to the value, every other key kept, and one write is logged |
| `MainDialogModel.MainDialog.ReadSettings` | RimClient/Widgets/maindialog.cpp:295-320 | the new store and geometry are `Settings.ReadSettings` of the old store; the four default writes are logged only when a key was missing |
| `MainDialogModel.MainDialog.WriteSettings` | RimClient/Widgets/maindialog.cpp:322-329 | the store becomes `Settings.WriteGeometry` of the current geometry, written key by key |
| `MainDialogModel.MainDialog.CloseEvent` | RimClient/Widgets/maindialog.cpp:109-114 | all four geometry writes are logged before the 50 ms quit is scheduled |
| `MainDialogModel.MainDialog.CloseWindow` | RimClient/Widgets/maindialog.cpp:131-134 | same effect as the close event |
| `MainDialogModel.MainDialog.UpdateWidgetGeometry` | RimClient/Widgets/maindialog.cpp:116-129 | the toolbar is placed at `Geometry.ToolBarGeometry` of the current width and the live margins |
| `MainDialogModel.MainDialog.ResizeEvent` | RimClient/Widgets/maindialog.cpp:104-107 | a resize changes only the size, keeps the position, and re-derives the toolbar from the new width |
| `MainDialogModel.MainDialog.Move` | RimClient/Widgets/maindialog.cpp:324 | a move changes only the position, which is the geometry `writeSettings` reads; the size and the toolbar stay |
| `MainDialogModel.MainDialog.MakeWindowFront` | RimClient/Widgets/maindialog.cpp:136-154 | flags become `WithStaysOnTop(old, flag)`, tooltip `PinToolTip(flag)`, `Main/topHint` persisted, panel shown again; nothing else changes |
| `MainDialogModel.MainDialog.ShowChatWindow` | RimClient/Widgets/maindialog.cpp:156-172 | the registry becomes `ShowChat` of the old one, a widget is constructed only on a new item, and that item's widget is shown; ownership invariant kept |
| `MainDialogModel.MainDialog.ShowHoverItem` | RimClient/Widgets/maindialog.cpp:174-192 | hover enter: a fresh overlay is faded in and tracked (`ShowHover`); hover leave: `HideHover`, with a fade-out logged only for a tracked overlay |
| `MainDialogModel.MainDialog.ShowPersonalEditWindow` | RimClient/Widgets/maindialog.cpp:194-210 | the slot becomes `EditSlot.Open` of the old one, and the editor is shown or restored accordingly |
| `MainDialogModel.MainDialog.UpdateEditInstance` | RimClient/Widgets/maindialog.cpp:212-216 | the slot is empty afterwards |
| `MainDialogModel.MainDialog.Destroy` | RimClient/Widgets/maindialog.cpp:73-92 | the editor, if any, is deleted and the slot emptied; every chat widget is deleted exactly once; then the shortcuts are saved |
| `MainDialogModel.MainDialog.DeleteChatWidgets` | RimClient/Widgets/maindialog.cpp:81-89 | the loop visits every registry key once and logs one delete per entry, each widget exactly once |

## Left out

- `RimClient/Widgets/widget/riconlabel.h`: a custom-painted label with no bookkeeping of its own.
- Building the widget tree and the layouts in `initWidget` (maindialog.cpp:220-290), and the signal/slot wiring. The editor's `destroyed` signal is modelled as an explicit call to `UpdateEditInstance`.
- The `Subject` registration, the global `dialog` pointer with `instance()`, and the empty `onMessage`: process plumbing with no state of the panel's.
- The 50 ms quit timer and the deferred first `updateWidgetGeometry` are not run. The close path only logs `QuitScheduled(50)` after the writes. The toolbar stays unplaced (`None`) until the first `UpdateWidgetGeometry` or `ResizeEvent`.
- Visibility of the panel itself: `showMinimized`/`showNormal` from the toolbar and the tray icon are Qt slots with no model state. The `show()` after a pin change is logged as `MainWindowShown`.
- Collaborators outside the core:
  - the window icon from `ImageManager`;
  - the tool button from `ActionManager`, whose tooltip is the `frontToolTip` field;
  - `ShortcutSettings::save`, logged as `ShortcutsSaved`;
  - the system tray icon.
- Inputs taken as parameters instead:
  - the screen size from `QDesktopWidget`;
  - an item's global position (`mapToGlobal`);
  - whether an open editor is minimized (`isMinimized`). An editor constructed by the call itself is taken as not minimized, Qt's default window state; `EditPersonInfoWindow`'s constructor is not part of this model, and `EditSlot.Open` and `EditSlot.OpenAfterDestroyedConstructs` rely on that assumption;
  - the live layout margins;
  - the constants `MAIN_PANEL_MIN_WIDTH` and `TOOL_HEIGHT`, whose values are not part of this model.
- Qt clamps `setGeometry` to the minimum and maximum sizes (maindialog.cpp:63-65). The model applies the stored values unclamped.
- The overlays' fade animations and their self-deletion, and what the chat windows and the editor do internally.
- The order in which `QMap` visits the chat registry at teardown is left open. `Destroy` returns it as a ghost sequence and states only that it visits every key once.
- Geometry.ScaleZoomIn: reads the factor 1.2 as the exact rational 6/5. The double nearest 1.2 is slightly smaller, and the model does not reason about how the C++ product is rounded before truncation.
- Geometry.DefaultGeometry: integers are unbounded, so a 32-bit overflow in `screenWidth - width - 20` is not modelled. Real screen sizes are far from `int` limits.
- The settings file stores booleans as QVariant booleans. The model stores `Main/topHint` as 1 or 0 and reads it back as "not 0", which is what `toBool` gives for the values the panel itself writes.
