/** The panel's window flags (Qt::WindowFlags) as a 32-bit set. */
module WindowFlags {

  type Flags = bv32

  /** Qt::WindowStaysOnTopHint. */
  const StaysOnTopHint: Flags := 0x0004_0000

  predicate StaysOnTop(f: Flags) {
    f & StaysOnTopHint != 0
  }

  /** Bit `i` of a flag word. */
  predicate Bit(f: Flags, i: bv5) {
    f & (1 << i) != 0
  }

  /** `flags | WindowStaysOnTopHint` when pinning, `flags & ~WindowStaysOnTopHint`
      when unpinning: the stays-on-top bit becomes `on` and no other bit moves. */
  function WithStaysOnTop(f: Flags, on: bool): (r: Flags)
    ensures StaysOnTop(r) == on
    ensures r & !StaysOnTopHint == f & !StaysOnTopHint
  {
    if on then f | StaysOnTopHint else f & !StaysOnTopHint
  }

  /** The same "nothing else changes" stated bit by bit: bit 18 is the
      stays-on-top hint, every other bit keeps its old value. */
  lemma OtherBitsUnchanged(f: Flags, on: bool, i: bv5)
    ensures i == 18 ==> Bit(WithStaysOnTop(f, on), i) == on
    ensures i != 18 ==> Bit(WithStaysOnTop(f, on), i) == Bit(f, i)
  {
  }

  /** Toggling the pin and then toggling it back to what it was restores the
      original flags exactly; setting it twice is the same as setting it once. */
  lemma PinRoundTrip(f: Flags, on: bool)
    ensures WithStaysOnTop(WithStaysOnTop(f, on), StaysOnTop(f)) == f
    ensures WithStaysOnTop(WithStaysOnTop(f, on), on) == WithStaysOnTop(f, on)
  {
  }
}
