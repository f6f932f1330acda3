/**
 * The capture dispatcher of server/keydisp/src/main.rs: the two lookups
 * `modifier_index` and `get_send_char`, and the closure handed to the hook,
 * which picks the target window, tracks the four modifier slots and decides
 * which character, if any, is sent to the viewers. The foreground window is
 * a parameter of an opaque type with equality.
 */
module Dispatch {
  import opened Wrappers
  import opened Common

  /** The hotkey that makes the foreground window the target. */
  const SET_INPUT_WINDOW_KEY: Scancode := F10

  /** Number of modifier slots: shift, control, alt, caps lock. */
  const MODIFIER_SLOTS: nat := 4

  /** The slot that tracks a modifier key; left and right variants share one. */
  function ModifierIndex(key: Scancode): (r: Option<nat>)
    ensures r.Some? ==> r.value < MODIFIER_SLOTS
  {
    match key
    case LeftShift => Some(0)
    case RightShift => Some(0)
    case LeftControl => Some(1)
    case RightControl => Some(1)
    case LeftAlt => Some(2)
    case RightAlt => Some(2)
    case CapsLock => Some(3)
    case _ => None
  }

  /**
   * The glyph shown for a key, if it has one. Every glyph lies in the
   * blocks Arrows, Miscellaneous Technical and Control Pictures.
   */
  function SendChar(key: Scancode): (r: Option<char>)
    ensures r.Some? ==> 0x2190 <= r.value as int <= 0x2423
  {
    match key
    case LeftShift => Some('⇧')
    case RightShift => Some('⇧')
    case LeftControl => Some('⌃')
    case RightControl => Some('⌃')
    case LeftAlt => Some('⎇')
    case RightAlt => Some('⎇')
    case CapsLock => Some('⇪')
    case Escape => Some('⎋')
    case Tab => Some('⇥')
    case Space => Some('␣')
    case Enter => Some('⏎')
    case Backspace => Some('⌫')
    case Delete => Some('⌦')
    case Home => Some('⇱')
    case End => Some('⇲')
    case PageUp => Some('⇞')
    case PageDown => Some('⇟')
    case Up => Some('↑')
    case Down => Some('↓')
    case Left => Some('←')
    case Right => Some('→')
    case _ => None
  }

  /**
   * `char::is_control`: the general category Cc, U+0000-U+001F and
   * U+007F-U+009F; all of it lies below U+00A0.
   */
  function IsControl(c: char): (b: bool)
    ensures b ==> c as int < 0xA0
  {
    c as int <= 0x1F || 0x7F <= c as int <= 0x9F
  }

  /**
   * `char::is_whitespace`: the White_Space property of the Unicode
   * character database; none of it lies between U+00A1 and U+167F or
   * above U+3000.
   */
  function IsWhitespace(c: char): (b: bool)
    ensures b ==> c as int <= 0xA0 || 0x1680 <= c as int <= 0x3000
  {
    var v := c as int;
    (0x09 <= v <= 0x0D) || v == 0x20 || v == 0x85 || v == 0xA0 || v == 0x1680
    || (0x2000 <= v <= 0x200A) || v == 0x2028 || v == 0x2029 || v == 0x202F
    || v == 0x205F || v == 0x3000
  }

  /**
   * The characters that are both control characters and white space: the
   * five C0 format controls U+0009-U+000D and NEXT LINE, U+0085.
   */
  lemma ControlWhitespaceOverlap(c: char)
    ensures IsControl(c) && IsWhitespace(c) <==> 0x09 <= c as int <= 0x0D || c as int == 0x85
  {
  }

  /** A typed character the dispatcher forwards. */
  predicate Printable(c: char)
  {
    !(IsControl(c) || IsWhitespace(c))
  }

  /** The closure's state after one event, and the character it sends. */
  datatype Outcome<W> = Outcome(inputWindow: Option<W>, modifiers: seq<KeyState>, output: Option<char>)

  /** What the closure does with event `e` while `fg` is the foreground window. */
  function Dispatch<W(==)>(inputWindow: Option<W>, modifiers: seq<KeyState>, e: Event, fg: W): (r: Outcome<W>)
    requires |modifiers| == MODIFIER_SLOTS
    ensures |r.modifiers| == MODIFIER_SLOTS
  {
    var target := if e == Key(SET_INPUT_WINDOW_KEY, Pressed) then Some(fg) else inputWindow;
    if Some(fg) != target then Outcome(target, modifiers, None)
    else match e
      case Char(c) => Outcome(target, modifiers, if Printable(c) then Some(c) else None)
      case Key(key, state) =>
        match ModifierIndex(key)
        case Some(i) => Outcome(target, modifiers[i := state], if modifiers[i] == Released then SendChar(key) else None)
        case None => Outcome(target, modifiers, if state == Pressed then SendChar(key) else None)
  }

  /** The keys of each slot: shift 0, control 1, alt 2, caps lock 3. */
  function SlotKeys(i: nat): set<Scancode>
  {
    match i
    case 0 => {LeftShift, RightShift}
    case 1 => {LeftControl, RightControl}
    case 2 => {LeftAlt, RightAlt}
    case 3 => {CapsLock}
    case _ => {}
  }

  /** A key has slot `i` exactly when it is one of that slot's keys; every other key has none. */
  lemma ModifierSlots(key: Scancode, i: nat)
    ensures ModifierIndex(key) == Some(i) <==> key in SlotKeys(i)
  {
  }

  /**
   * Every modifier key has a glyph; two keys share a slot exactly when they
   * share a glyph, so left and right variants show the same symbol.
   */
  lemma ModifierGlyphs(a: Scancode, b: Scancode)
    requires ModifierIndex(a).Some?
    ensures SendChar(a).Some?
    ensures ModifierIndex(b).Some? ==> (ModifierIndex(a) == ModifierIndex(b) <==> SendChar(a) == SendChar(b))
  {
  }

  /** The hotkey has no glyph. */
  lemma HotkeyHasNoGlyph()
    ensures SendChar(SET_INPUT_WINDOW_KEY) == None
    ensures ModifierIndex(SET_INPUT_WINDOW_KEY) == None
  {
  }

  /** No glyph is a control or white-space character, so nothing the dispatcher sends is one. */
  lemma GlyphsPrintable(key: Scancode)
    requires SendChar(key).Some?
    ensures Printable(SendChar(key).value)
  {
  }

  /** Every character sent is printable: a forwarded character or a glyph. */
  lemma OutputPrintable<W>(inputWindow: Option<W>, modifiers: seq<KeyState>, e: Event, fg: W)
    requires |modifiers| == MODIFIER_SLOTS
    ensures var r := Dispatch(inputWindow, modifiers, e, fg);
            r.output.Some? ==> Printable(r.output.value)
  {
    if e.Key? && SendChar(e.scancode).Some? {
      GlyphsPrintable(e.scancode);
    }
  }

  /**
   * Pressing the hotkey makes the foreground window the target, whatever the
   * target was; no other event changes the target.
   */
  lemma HotkeySetsTarget<W>(inputWindow: Option<W>, modifiers: seq<KeyState>, e: Event, fg: W)
    requires |modifiers| == MODIFIER_SLOTS
    ensures var r := Dispatch(inputWindow, modifiers, e, fg);
            if e == Key(SET_INPUT_WINDOW_KEY, Pressed) then r.inputWindow == Some(fg)
            else r.inputWindow == inputWindow
  {
  }

  /** Pressing the hotkey sends nothing and leaves the modifier slots alone. */
  lemma HotkeyPressSilent<W>(inputWindow: Option<W>, modifiers: seq<KeyState>, fg: W)
    requires |modifiers| == MODIFIER_SLOTS
    ensures var r := Dispatch(inputWindow, modifiers, Key(SET_INPUT_WINDOW_KEY, Pressed), fg);
            r.output == None && r.modifiers == modifiers
  {
  }

  /**
   * Gating: unless the foreground window is the target (after the hotkey
   * check), the event sends nothing and leaves the modifier slots alone;
   * in particular nothing is sent before a target is chosen.
   */
  lemma Gating<W>(inputWindow: Option<W>, modifiers: seq<KeyState>, e: Event, fg: W)
    requires |modifiers| == MODIFIER_SLOTS
    ensures var r := Dispatch(inputWindow, modifiers, e, fg);
            Some(fg) != r.inputWindow ==> r.output == None && r.modifiers == modifiers
    ensures inputWindow == None && e != Key(SET_INPUT_WINDOW_KEY, Pressed)
            ==> Dispatch(inputWindow, modifiers, e, fg).output == None
  {
  }

  /** In the target window a typed character is sent exactly when it is neither a control character nor white space. */
  lemma CharRule<W>(inputWindow: Option<W>, modifiers: seq<KeyState>, c: char, fg: W)
    requires |modifiers| == MODIFIER_SLOTS && inputWindow == Some(fg)
    ensures var r := Dispatch(inputWindow, modifiers, Char(c), fg);
            (r.output == Some(c) <==> Printable(c)) && (r.output.Some? ==> r.output == Some(c))
            && r.modifiers == modifiers
  {
  }

  /**
   * In the target window a modifier key records its new state in its slot
   * and sends its glyph exactly when the slot was `Released` before.
   */
  lemma ModifierEdge<W>(inputWindow: Option<W>, modifiers: seq<KeyState>, key: Scancode, state: KeyState, fg: W)
    requires |modifiers| == MODIFIER_SLOTS && inputWindow == Some(fg) && ModifierIndex(key).Some?
    ensures var r := Dispatch(inputWindow, modifiers, Key(key, state), fg);
            var i := ModifierIndex(key).value;
            r.modifiers == modifiers[i := state]
            && (r.output.Some? <==> modifiers[i] == Released)
            && (r.output.Some? ==> r.output == SendChar(key))
  {
    ModifierGlyphs(key, key);
  }

  /**
   * The edge rule over two events on the same slot (the second key may be
   * the other side's variant): a repeated press is silent, a release after
   * a press is silent, a release from a released slot sends the glyph, and
   * so does a release after a release.
   */
  lemma ModifierSequences<W>(modifiers: seq<KeyState>, a: Scancode, b: Scancode, sa: KeyState, sb: KeyState, fg: W)
    requires |modifiers| == MODIFIER_SLOTS
    requires ModifierIndex(a).Some? && ModifierIndex(a) == ModifierIndex(b)
    ensures var r1 := Dispatch(Some(fg), modifiers, Key(a, sa), fg);
            var r2 := Dispatch(r1.inputWindow, r1.modifiers, Key(b, sb), fg);
            (sa == Pressed ==> r2.output == None)
            && (sa == Released && modifiers[ModifierIndex(a).value] == Released
                ==> r1.output == SendChar(a) && r1.output.Some?)
            && (sa == Released && sb == Released ==> r2.output == SendChar(b) && r2.output.Some?)
  {
    var r1 := Dispatch(Some(fg), modifiers, Key(a, sa), fg);
    ModifierEdge(Some(fg), modifiers, a, sa, fg);
    assert r1.inputWindow == Some(fg);
    ModifierEdge(r1.inputWindow, r1.modifiers, b, sb, fg);
  }

  /** In the target window any other key sends its glyph when pressed, nothing when released, and nothing if it has no glyph. */
  lemma OtherKeyRule<W>(inputWindow: Option<W>, modifiers: seq<KeyState>, key: Scancode, state: KeyState, fg: W)
    requires |modifiers| == MODIFIER_SLOTS && inputWindow == Some(fg) && ModifierIndex(key).None?
    ensures var r := Dispatch(inputWindow, modifiers, Key(key, state), fg);
            r.modifiers == modifiers
            && r.output == (if state == Pressed then SendChar(key) else None)
  {
  }

  /**
   * After the hotkey is pressed in window `w`, a printable character typed
   * in `w` is sent, and one typed in any other window is not.
   */
  lemma HotkeyThenChar<W>(inputWindow: Option<W>, modifiers: seq<KeyState>, w: W, other: W, c: char)
    requires |modifiers| == MODIFIER_SLOTS && other != w && Printable(c)
    ensures var r1 := Dispatch(inputWindow, modifiers, Key(SET_INPUT_WINDOW_KEY, Pressed), w);
            Dispatch(r1.inputWindow, r1.modifiers, Char(c), w).output == Some(c)
            && Dispatch(r1.inputWindow, r1.modifiers, Char(c), other).output == None
  {
    HotkeySetsTarget(inputWindow, modifiers, Key(SET_INPUT_WINDOW_KEY, Pressed), w);
  }

  /**
   * The state the closure captures: the target window and the four modifier
   * slots, updated in place by each event.
   */
  class Dispatcher<W(==)> {
    var inputWindow: Option<W>
    const modifierState: array<KeyState>

    ghost predicate Valid()
      reads this
    {
      modifierState.Length == MODIFIER_SLOTS
    }

    /** No target yet, every slot `Released`. */
    constructor ()
      ensures Valid() && fresh(modifierState)
      ensures inputWindow == None && modifierState[..] == [Released, Released, Released, Released]
    {
      inputWindow := None;
      modifierState := new KeyState[MODIFIER_SLOTS](_ => Released);
    }

    /** Handles one event from the hook while `fg` is the foreground window; returns the character to send. */
    method OnEvent(e: Event, fg: W) returns (out: Option<char>)
      requires Valid()
      modifies this, modifierState
      ensures Valid()
      ensures var r := Dispatch(old(inputWindow), old(modifierState[..]), e, fg);
              inputWindow == r.inputWindow && modifierState[..] == r.modifiers && out == r.output
    {
      if e.Key? && e.scancode == SET_INPUT_WINDOW_KEY && e.keyState == Pressed {
        inputWindow := Some(fg);
      }
      out := None;
      if Some(fg) == inputWindow {
        match e {
          case Char(c) =>
            if !(IsControl(c) || IsWhitespace(c)) {
              out := Some(c);
            }
          case Key(scancode, keyState) =>
            var idx := ModifierIndex(scancode);
            if idx.Some? {
              var prev := modifierState[idx.value];
              modifierState[idx.value] := keyState;
              if prev == Released {
                out := SendChar(scancode);
              }
            } else if keyState == Pressed {
              out := SendChar(scancode);
            }
        }
      }
    }
  }
}
