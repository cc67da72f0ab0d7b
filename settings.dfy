/** The process-wide settings file as the panel uses it: integer values under
    the `Main/` keys. A boolean is stored as 1 or 0 and read back as "not 0". */
module Settings {

  import opened Geometry

  type Store = map<string, int>

  const KeyX: string := "Main/x"
  const KeyY: string := "Main/y"
  const KeyWidth: string := "Main/width"
  const KeyHeight: string := "Main/height"
  const KeyTopHint: string := "Main/topHint"

  /** The five keys are different settings. */
  lemma KeysDistinct()
    ensures KeyTopHint !in {KeyX, KeyY, KeyWidth, KeyHeight}
    ensures KeyX != KeyY && KeyX != KeyWidth && KeyX != KeyHeight
    ensures KeyY != KeyWidth && KeyY != KeyHeight && KeyWidth != KeyHeight
  {
  }

  /** `value(key).toInt()`: a missing key reads as an invalid variant, whose
      integer value is 0. */
  function Value(s: Store, key: string): (v: int)
    ensures key in s ==> v == s[key]
    ensures key !in s ==> v == 0
  {
    if key in s then s[key] else 0
  }

  /** `value("Main/topHint").toBool()`. */
  function TopHint(s: Store): (on: bool)
    ensures KeyTopHint !in s ==> !on
    ensures KeyTopHint in s ==> (on <==> s[KeyTopHint] != 0)
  {
    Value(s, KeyTopHint) != 0
  }

  function FromBool(b: bool): int {
    if b then 1 else 0
  }

  /** All four geometry keys hold a value. */
  predicate HasGeometry(s: Store): (b: bool)
    ensures b <==> {KeyX, KeyY, KeyWidth, KeyHeight} <= s.Keys
  {
    KeyX in s && KeyY in s && KeyWidth in s && KeyHeight in s
  }

  /** The geometry the four keys describe. */
  function StoredGeometry(s: Store): Rect {
    Rect(Value(s, KeyX), Value(s, KeyY), Value(s, KeyWidth), Value(s, KeyHeight))
  }

  /** The store after the four `setValue` calls of the geometry writer, in the
      order x, y, width, height. */
  function WriteGeometry(s: Store, g: Rect): (r: Store)
    ensures HasGeometry(r) && StoredGeometry(r) == g
  {
    s[KeyX := g.x][KeyY := g.y][KeyWidth := g.width][KeyHeight := g.height]
  }

  /** After writing a geometry all four keys are present and read back as that
      geometry; no other key changes. */
  lemma WriteGeometryReadsBack(s: Store, g: Rect)
    ensures var r := WriteGeometry(s, g);
      && HasGeometry(r) && StoredGeometry(r) == g
      && r.Keys == s.Keys + {KeyX, KeyY, KeyWidth, KeyHeight}
      && r - {KeyX, KeyY, KeyWidth, KeyHeight} == s - {KeyX, KeyY, KeyWidth, KeyHeight}
  {
  }

  /** The store after persisting the pin state. */
  function WriteTopHint(s: Store, on: bool): (r: Store)
    ensures TopHint(r) == on
  {
    s[KeyTopHint := FromBool(on)]
  }

  /** After persisting the pin state it reads back as written; no other key
      changes. */
  lemma WriteTopHintReadsBack(s: Store, on: bool)
    ensures var r := WriteTopHint(s, on);
      && TopHint(r) == on
      && r.Keys == s.Keys + {KeyTopHint}
      && r - {KeyTopHint} == s - {KeyTopHint}
  {
  }

  /** The outcome of reading the geometry at start-up: the store afterwards
      and the rectangle applied to the window. */
  datatype Restored = Restored(store: Store, applied: Rect)

  /** `readSettings` on a store: defaults first if a key is missing, then the
      four stored values are applied. */
  function ReadSettings(s: Store, screenWidth: int, screenHeight: int, minWidth: int): (r: Restored)
    ensures HasGeometry(s) ==> r.store == s
    ensures HasGeometry(r.store) && r.applied == StoredGeometry(r.store)
  {
    var store := if HasGeometry(s) then s
                 else WriteGeometry(s, DefaultGeometry(screenWidth, screenHeight, minWidth));
    Restored(store, StoredGeometry(store))
  }

  /** If all four geometry keys exist the store is untouched; if any is
      missing, all four are overwritten with the first-run defaults. Either
      way the four keys exist afterwards and the applied geometry is what
      they hold. */
  lemma ReadSettingsRestores(s: Store, screenWidth: int, screenHeight: int, minWidth: int)
    ensures var r := ReadSettings(s, screenWidth, screenHeight, minWidth);
      && (HasGeometry(s) ==> r.store == s)
      && (!HasGeometry(s) ==> r.store == WriteGeometry(s, DefaultGeometry(screenWidth, screenHeight, minWidth)))
      && (!HasGeometry(s) ==> r.applied == DefaultGeometry(screenWidth, screenHeight, minWidth))
      && HasGeometry(r.store) && r.applied == StoredGeometry(r.store)
  {
    if !HasGeometry(s) {
      WriteGeometryReadsBack(s, DefaultGeometry(screenWidth, screenHeight, minWidth));
    }
  }

  /** Reading the settings a second time changes nothing: the defaults, once
      written, are what later launches apply. */
  lemma ReadSettingsIdempotent(s: Store, screenWidth: int, screenHeight: int, minWidth: int)
    ensures var r := ReadSettings(s, screenWidth, screenHeight, minWidth);
      ReadSettings(r.store, screenWidth, screenHeight, minWidth) == r
  {
    ReadSettingsRestores(s, screenWidth, screenHeight, minWidth);
  }

  /** Round trip of the close path: whatever geometry was written is exactly
      what the next start-up applies, without rewriting any defaults, whatever
      the screen. */
  lemma WriteThenReadGeometry(s: Store, g: Rect, screenWidth: int, screenHeight: int, minWidth: int)
    ensures ReadSettings(WriteGeometry(s, g), screenWidth, screenHeight, minWidth)
      == Restored(WriteGeometry(s, g), g)
  {
    WriteGeometryReadsBack(s, g);
  }

  /** Writing the geometry leaves the pin state alone, and writing the pin state
      leaves the geometry alone. */
  lemma GeometryAndTopHintIndependent(s: Store, g: Rect, on: bool)
    ensures TopHint(WriteGeometry(s, g)) == TopHint(s)
    ensures HasGeometry(WriteTopHint(s, on)) == HasGeometry(s)
    ensures StoredGeometry(WriteTopHint(s, on)) == StoredGeometry(s)
  {
    KeysDistinct();
  }
}
