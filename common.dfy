/**
 * The values exchanged between the capture layer and the dispatcher
 * (server/keydisp/src/common.rs), and the closed scancode enumeration they carry.
 */
module Common {

  /**
   * The physical keys the server can report. Only the constructors that the
   * key table and the dispatcher mention are declared; the rest of the
   * enumeration of the scancode crate is not part of this model.
   */
  datatype Scancode =
    | Backspace | Tab | Enter | Pause | CapsLock | Escape | Space
    | PageUp | PageDown | End | Home | Left | Up | Right | Down
    | PrintScreen | Insert | Delete
    | Num0 | Num1 | Num2 | Num3 | Num4 | Num5 | Num6 | Num7 | Num8 | Num9
    | A | B | C | D | E | F | G | H | I | J | K | L | M
    | N | O | P | Q | R | S | T | U | V | W | X | Y | Z
    | Pad0 | Pad1 | Pad2 | Pad3 | Pad4 | Pad5 | Pad6 | Pad7 | Pad8 | Pad9
    | PadMultiply | PadPlus | PadMinus | PadDecimal | PadDivide
    | F1 | F2 | F3 | F4 | F5 | F6 | F7 | F8 | F9 | F10 | F11 | F12
    | NumLock | ScrollLock
    | LeftShift | RightShift | LeftControl | RightControl | LeftAlt | RightAlt
    | Semicolon | Equals | Comma | Minus | Period | Slash | Grave
    | LeftBracket | Backslash | RightBracket | Apostrophe

  /** Whether a key went down or came up. */
  datatype KeyState = Pressed | Released

  /**
   * One notification from the capture layer: a key transition, or one decoded
   * character. A Dafny `char` is a Unicode scalar value, exactly like Rust's.
   */
  datatype Event =
    | Key(scancode: Scancode, keyState: KeyState)
    | Char(c: char)

  /**
   * An event is a key transition or a character, never both, and a
   * character is a scalar value: at most U+10FFFF and not a surrogate.
   */
  lemma EventShapes(e: Event)
    ensures e.Key? != e.Char?
    ensures e.Char? ==> e.c as int <= 0x10_FFFF && !(0xD800 <= e.c as int <= 0xDFFF)
  {
  }
}
