/**
 * The table from Windows virtual-key codes to scancodes
 * (`VK_SCANCODE_MAPPING`, server/keydisp/src/windows/mod.rs). The source
 * builds a list segment by segment, checks that it has 0xFF entries and
 * copies it into a 256-entry array whose remaining entry stays `None`.
 */
module VkMap {
  import opened Wrappers
  import opened Common

  /** A virtual-key code that indexes the 256-entry table. */
  type VirtualKey = x: int | 0 <= x < 256

  /**
   * The table lookup. The source builds a list of 0xFF entries from literal
   * segments and runs of `None`, then copies it into a 256-entry array
   * initialised to `None`; this is the entry each code ends up with, written
   * out by code. Digit and letter keys use their ASCII codes. Only codes
   * 0x08 (VK_BACK) to 0xDE (VK_OEM_7) are mapped: the mouse buttons below
   * and the OEM-specific and reserved codes above are not.
   */
  function VkScancodeMapping(vk: VirtualKey): (r: Option<Scancode>)
    ensures r.Some? ==> 0x08 <= vk <= 0xDE
  {
    match vk
    case 0x08 => Some(Backspace)            // VK_BACK
    case 0x09 => Some(Tab)                  // VK_TAB
    case 0x0D => Some(Enter)                // VK_RETURN
    case 0x13 => Some(Pause)                // VK_PAUSE
    case 0x14 => Some(CapsLock)             // VK_CAPITAL
    case 0x1B => Some(Escape)               // VK_ESCAPE
    case 0x20 => Some(Space)                // VK_SPACE
    case 0x21 => Some(PageUp)               // VK_PRIOR
    case 0x22 => Some(PageDown)             // VK_NEXT
    case 0x23 => Some(End)                  // VK_END
    case 0x24 => Some(Home)                 // VK_HOME
    case 0x25 => Some(Left)                 // VK_LEFT
    case 0x26 => Some(Up)                   // VK_UP
    case 0x27 => Some(Right)                // VK_RIGHT
    case 0x28 => Some(Down)                 // VK_DOWN
    case 0x2A => Some(PrintScreen)          // VK_PRINT
    case 0x2D => Some(Insert)               // VK_INSERT
    case 0x2E => Some(Delete)               // VK_DELETE
    case 0x30 => Some(Num0)  case 0x31 => Some(Num1)  case 0x32 => Some(Num2)  case 0x33 => Some(Num3)  case 0x34 => Some(Num4)
    case 0x35 => Some(Num5)  case 0x36 => Some(Num6)  case 0x37 => Some(Num7)  case 0x38 => Some(Num8)  case 0x39 => Some(Num9)
    case 0x41 => Some(A)  case 0x42 => Some(B)  case 0x43 => Some(C)  case 0x44 => Some(D)  case 0x45 => Some(E)
    case 0x46 => Some(F)  case 0x47 => Some(G)  case 0x48 => Some(H)  case 0x49 => Some(I)  case 0x4A => Some(J)
    case 0x4B => Some(K)  case 0x4C => Some(L)  case 0x4D => Some(M)  case 0x4E => Some(N)  case 0x4F => Some(O)
    case 0x50 => Some(P)  case 0x51 => Some(Q)  case 0x52 => Some(R)  case 0x53 => Some(S)  case 0x54 => Some(T)
    case 0x55 => Some(U)  case 0x56 => Some(V)  case 0x57 => Some(W)  case 0x58 => Some(X)  case 0x59 => Some(Y)
    case 0x5A => Some(Z)
    case 0x60 => Some(Pad0)                 // VK_NUMPAD0
    case 0x61 => Some(Pad1)                 // VK_NUMPAD1
    case 0x62 => Some(Pad2)                 // VK_NUMPAD2
    case 0x63 => Some(Pad3)                 // VK_NUMPAD3
    case 0x64 => Some(Pad4)                 // VK_NUMPAD4
    case 0x65 => Some(Pad5)                 // VK_NUMPAD5
    case 0x66 => Some(Pad6)                 // VK_NUMPAD6
    case 0x67 => Some(Pad7)                 // VK_NUMPAD7
    case 0x68 => Some(Pad8)                 // VK_NUMPAD8
    case 0x69 => Some(Pad9)                 // VK_NUMPAD9
    case 0x6A => Some(PadMultiply)          // VK_MULTIPLY
    case 0x6B => Some(PadPlus)              // VK_ADD
    case 0x6D => Some(PadMinus)             // VK_SUBTRACT
    case 0x6E => Some(PadDecimal)           // VK_DECIMAL
    case 0x6F => Some(PadDivide)            // VK_DIVIDE
    case 0x70 => Some(F1)                   // VK_F1
    case 0x71 => Some(F2)                   // VK_F2
    case 0x72 => Some(F3)                   // VK_F3
    case 0x73 => Some(F4)                   // VK_F4
    case 0x74 => Some(F5)                   // VK_F5
    case 0x75 => Some(F6)                   // VK_F6
    case 0x76 => Some(F7)                   // VK_F7
    case 0x77 => Some(F8)                   // VK_F8
    case 0x78 => Some(F9)                   // VK_F9
    case 0x79 => Some(F10)                  // VK_F10
    case 0x7A => Some(F11)                  // VK_F11
    case 0x7B => Some(F12)                  // VK_F12
    case 0x90 => Some(NumLock)              // VK_NUMLOCK
    case 0x91 => Some(ScrollLock)           // VK_SCROLL
    case 0xA0 => Some(LeftShift)            // VK_LSHIFT
    case 0xA1 => Some(RightShift)           // VK_RSHIFT
    case 0xA2 => Some(LeftControl)          // VK_LCONTROL
    case 0xA3 => Some(RightControl)         // VK_RCONTROL
    case 0xA4 => Some(LeftAlt)              // VK_LMENU
    case 0xA5 => Some(RightAlt)             // VK_RMENU
    case 0xBA => Some(Semicolon)            // VK_OEM_1
    case 0xBB => Some(Equals)               // VK_OEM_PLUS
    case 0xBC => Some(Comma)                // VK_OEM_COMMA
    case 0xBD => Some(Minus)                // VK_OEM_MINUS
    case 0xBE => Some(Period)               // VK_OEM_PERIOD
    case 0xBF => Some(Slash)                // VK_OEM_2
    case 0xC0 => Some(Grave)                // VK_OEM_3
    case 0xDB => Some(LeftBracket)          // VK_OEM_4
    case 0xDC => Some(Backslash)            // VK_OEM_5
    case 0xDD => Some(RightBracket)         // VK_OEM_6
    case 0xDE => Some(Apostrophe)           // VK_OEM_7
    case _ => None
  }

  /** The last code, 0xFF, lies past the end of the built list and stays unmapped. */
  lemma LastCodeUnmapped()
    ensures VkScancodeMapping(0xFF) == None
  {
  }

  /** The key that types an ASCII digit or capital letter. */
  function AsciiKey(c: char): Option<Scancode>
  {
    match c
    case '0' => Some(Num0)
    case '1' => Some(Num1)
    case '2' => Some(Num2)
    case '3' => Some(Num3)
    case '4' => Some(Num4)
    case '5' => Some(Num5)
    case '6' => Some(Num6)
    case '7' => Some(Num7)
    case '8' => Some(Num8)
    case '9' => Some(Num9)
    case 'A' => Some(A)
    case 'B' => Some(B)
    case 'C' => Some(C)
    case 'D' => Some(D)
    case 'E' => Some(E)
    case 'F' => Some(F)
    case 'G' => Some(G)
    case 'H' => Some(H)
    case 'I' => Some(I)
    case 'J' => Some(J)
    case 'K' => Some(K)
    case 'L' => Some(L)
    case 'M' => Some(M)
    case 'N' => Some(N)
    case 'O' => Some(O)
    case 'P' => Some(P)
    case 'Q' => Some(Q)
    case 'R' => Some(R)
    case 'S' => Some(S)
    case 'T' => Some(T)
    case 'U' => Some(U)
    case 'V' => Some(V)
    case 'W' => Some(W)
    case 'X' => Some(X)
    case 'Y' => Some(Y)
    case 'Z' => Some(Z)
    case _ => None
  }

  /** The numeric keypad key of a digit. */
  function KeypadKey(d: int): Option<Scancode>
  {
    match d
    case 0 => Some(Pad0)
    case 1 => Some(Pad1)
    case 2 => Some(Pad2)
    case 3 => Some(Pad3)
    case 4 => Some(Pad4)
    case 5 => Some(Pad5)
    case 6 => Some(Pad6)
    case 7 => Some(Pad7)
    case 8 => Some(Pad8)
    case 9 => Some(Pad9)
    case _ => None
  }

  /** The function key Fn. */
  function FunctionKey(n: int): Option<Scancode>
  {
    match n
    case 1 => Some(F1)
    case 2 => Some(F2)
    case 3 => Some(F3)
    case 4 => Some(F4)
    case 5 => Some(F5)
    case 6 => Some(F6)
    case 7 => Some(F7)
    case 8 => Some(F8)
    case 9 => Some(F9)
    case 10 => Some(F10)
    case 11 => Some(F11)
    case 12 => Some(F12)
    case _ => None
  }

  /** The digit keys, 0x30-0x39, are indexed by their ASCII codes. */
  lemma DigitRow(vk: VirtualKey)
    requires 0x30 <= vk <= 0x39
    ensures VkScancodeMapping(vk) == AsciiKey(vk as char)
  {
  }

  /** The letter keys, 0x41-0x5A, are indexed by the ASCII codes of the capital letters. */
  lemma LetterRow(vk: VirtualKey)
    requires 0x41 <= vk <= 0x5A
    ensures VkScancodeMapping(vk) == AsciiKey(vk as char)
  {
  }

  /** VK_NUMPAD0-VK_NUMPAD9 (0x60-0x69) are the keypad digits. */
  lemma KeypadRow(d: int)
    requires 0 <= d <= 9
    ensures VkScancodeMapping(0x60 + d) == KeypadKey(d)
  {
  }

  /** VK_F1-VK_F12 (0x70-0x7B) are F1-F12; VK_F13-VK_F24 (0x7C-0x87) are not mapped. */
  lemma FunctionRow(n: int)
    requires 1 <= n <= 24
    ensures VkScancodeMapping(0x6F + n) == FunctionKey(n)
  {
  }

  /** The generic VK_SHIFT, VK_CONTROL and VK_MENU codes (0x10-0x12) are not mapped: only the sided codes are. */
  lemma GenericModifiersUnmapped(vk: VirtualKey)
    requires 0x10 <= vk <= 0x12
    ensures VkScancodeMapping(vk) == None
  {
  }

  /** The sided shift, control and alt keys, numbered as Windows numbers their codes from 0xA0. */
  function SidedModifierKey(i: int): Option<Scancode>
  {
    match i
    case 0 => Some(LeftShift)
    case 1 => Some(RightShift)
    case 2 => Some(LeftControl)
    case 3 => Some(RightControl)
    case 4 => Some(LeftAlt)
    case 5 => Some(RightAlt)
    case _ => None
  }

  /** VK_LSHIFT-VK_RMENU (0xA0-0xA5) are left and right shift, control and alt, in that order. */
  lemma SidedModifierCodes(i: int)
    requires 0 <= i <= 5
    ensures VkScancodeMapping(0xA0 + i) == SidedModifierKey(i)
  {
  }

  /** No other code produces a shift, control or alt scancode. */
  lemma SidedModifiersOnly(vk: VirtualKey, i: int)
    requires 0 <= i <= 5 && VkScancodeMapping(vk) == SidedModifierKey(i)
    ensures vk == 0xA0 + i
  {
  }
}
