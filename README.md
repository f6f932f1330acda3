# keydisp capture core in Dafny

keydisp is a Windows server that shows the keys typed into one chosen window
to viewers connected over WebSocket. This project models its capture and
decode pipeline and proves properties of the model:

- `utf16.dfy` (`Utf16`): the `BufferedUtf16Iterator` that reassembles the
  UTF-16 units produced by `ToUnicode`. It is a class whose state is a queue
  of units and at most one held-back unit. `Next` is proved against the
  decoding function `DecodeNext`, and that function is proved against the
  UTF-16 encoding of section 2.1 of RFC 2781, in both directions.
- `vkmap.dfy` (`VkMap`): the 256-entry table from Windows virtual-key codes
  to scancodes, as a function, with its rows checked against small
  reference tables.
- `hook.dfy` (`Hook`): the event emission of the low-level keyboard hook.
  The function `CallbackEvents` says which events one notification produces.
  The class `KeyboardHook` holds the shared iterator and runs the push loop
  and the drain loop. It keeps the invariant that the iterator is empty
  between notifications.
- `dispatch.dfy` (`Dispatch`): `modifier_index`, `get_send_char` and the
  hook closure of `main.rs`. The step function `Dispatch` describes the
  closure. The class `Dispatcher` updates the target window and the
  four-slot modifier array in place.
- `broadcast.dfy` (`Broadcast`): the viewer list. `Deliver` is the
  `drain_filter` pass, which writes a character to every viewer and removes
  those whose write failed. `Accept` is the acceptor's append.
- `common.dfy` (`Common`) and `wrappers.dfy` (`Wrappers`): the shared event
  types and `Option`/`Result`.

Operating-system inputs become parameters:

- the message kind, the virtual-key code and the result of `ToUnicode` (a
  unit count and the ten-unit buffer) for the hook;
- the foreground window, of an opaque type with equality, for the closure;
- one success flag per viewer for the WebSocket writes.

## Model

| member | source | states |
|---|---|---|
| Common.EventShapes | server/keydisp/src/common.rs:9-16 | An event is a key transition or a character, never both. A character is a Unicode scalar value: at most U+10FFFF and not a surrogate. |
| Utf16.PairValue | server/keydisp/src/windows/mod.rs:198-200 | A valid surrogate pair decodes to a value in 0x10000..0x10FFFF. Such a value is never a surrogate, which is what `from_u32_unchecked` needs. |
| Utf16.ShiftOrIsMulAdd | server/keydisp/src/windows/mod.rs:199 | The source's 32-bit shift-or formula gives the same value as `PairValue`. |
| Utf16.DecodeNext | server/keydisp/src/windows/mod.rs:173-202 | One call yields nothing exactly when no unit is pending. Otherwise it consumes one or two of the pending units. |
| Utf16.DecodeAll | server/keydisp/src/windows/mod.rs:88-90 | Draining yields at most one item per unit and at least one item per two units. |
| Utf16.ErrorCases | server/keydisp/src/windows/mod.rs:179-196 | An item is an error exactly when the first unit is a surrogate that does not begin a valid pair. Such an error carries that unit and consumes only it: a lone trailing surrogate, a leading surrogate at the end, or a leading surrogate before a non-trailing unit. |
| Utf16.DecodeEncodedChar | server/keydisp/src/windows/mod.rs:179-200 | The RFC 2781 encoding of any scalar value, followed by anything, decodes back to that value and consumes exactly its units. |
| Utf16.DecodedCharReencodes | server/keydisp/src/windows/mod.rs:179-200 | A successfully decoded value re-encodes to exactly the units it consumed. |
| Utf16.RoundTrip | server/keydisp/src/windows/mod.rs:173-202 | Draining the encoding of any scalar sequence yields exactly that sequence, in order, with no errors. |
| Utf16.ErrorFreeIsEncoding | server/keydisp/src/windows/mod.rs:173-202 | Conversely, units that drain without an error are exactly the encoding of the values they yield. |
| Utf16.BufferedUtf16Iterator.constructor | server/keydisp/src/windows/mod.rs:154-159 | A new iterator has an empty queue and no held unit. |
| Utf16.BufferedUtf16Iterator.PushU16 | server/keydisp/src/windows/mod.rs:161-163 | The unit is appended at the back of the queue, and the held unit is unchanged. |
| Utf16.BufferedUtf16Iterator.Next | server/keydisp/src/windows/mod.rs:173-202 | The held unit is examined first, then the queue. The result is `None` exactly when both are empty, and then the state is unchanged. Otherwise the result is `DecodeNext` of the pending units and exactly the units it consumed are removed. The unit read after a leading surrogate that is not a trailing one becomes the held unit, so it is not lost. Each `Some` strictly shrinks the pending units. |
| VkMap.VkScancodeMapping | server/keydisp/src/windows/mod.rs:205-430 | The virtual-key table: only codes 0x08 (VK_BACK) to 0xDE (VK_OEM_7) map to a scancode; the mouse buttons below and the OEM-specific and reserved codes above map to nothing. |
| VkMap.LastCodeUnmapped | server/keydisp/src/windows/mod.rs:421-426 | Code 0xFF, the one array entry the 0xFF-entry list does not fill, maps to nothing. |
| VkMap.DigitRow | server/keydisp/src/windows/mod.rs:256-265 | Codes 0x30-0x39 map to `Num0`-`Num9`, the keys whose ASCII codes they are. |
| VkMap.LetterRow | server/keydisp/src/windows/mod.rs:270-295 | Codes 0x41-0x5A map to `A`-`Z`, the keys whose ASCII codes they are. |
| VkMap.KeypadRow | server/keydisp/src/windows/mod.rs:301-310 | Codes 0x60-0x69 map to `Pad0`-`Pad9`. |
| VkMap.FunctionRow | server/keydisp/src/windows/mod.rs:317-340 | Codes 0x70-0x7B map to `F1`-`F12`. F13-F24 (0x7C-0x87) map to nothing. |
| VkMap.GenericModifiersUnmapped | server/keydisp/src/windows/mod.rs:224-226 | The generic `VK_SHIFT`, `VK_CONTROL` and `VK_MENU` codes map to nothing. |
| VkMap.SidedModifierCodes | server/keydisp/src/windows/mod.rs:353-358 | Codes 0xA0-0xA5 map to left and right shift, control and alt, in that order. |
| VkMap.SidedModifiersOnly | server/keydisp/src/windows/mod.rs:206-429 | No other code in the table maps to a shift, control or alt scancode. |
| Hook.CharEvents | server/keydisp/src/windows/mod.rs:88-90 | The drain loop sends one `Char` event per decoded item, in order. An error item becomes U+FFFD. |
| Hook.CallbackEvents | server/keydisp/src/windows/mod.rs:47-95 | The events of one notification: a message other than key-up or key-down yields none, and there are at most one key event plus one character per buffered or new unit. |
| Hook.DrainStep | server/keydisp/src/windows/mod.rs:88-90 | One turn of the drain loop sends the `Char` event of the first remaining item. |
| Hook.SplitPairReplaced | server/keydisp/src/windows/mod.rs:82-90 | A surrogate pair whose halves arrive in two notifications is not reassembled: the buffer is drained after each, so each half is sent as U+FFFD. |
| Hook.KeyUpEvents | server/keydisp/src/windows/mod.rs:48-53 | Key-up sends one `Released` event exactly when the table maps the key, and never a character. |
| Hook.KeyDownOrder | server/keydisp/src/windows/mod.rs:54-90 | Key-down sends its `Pressed` event first when the key is mapped. Every event after it is a character. |
| Hook.NoCharsWithoutUnits | server/keydisp/src/windows/mod.rs:80-81 | A dead key (-1) or a key with no character (0) sends no character. |
| Hook.CharsPerItem | server/keydisp/src/windows/mod.rs:82-90 | After key-down with n > 0 units, one character is sent per item decoded from the pending and new units, in order, with U+FFFD for each error. There are between half as many and as many of them as units. |
| Hook.TypedText | server/keydisp/src/windows/mod.rs:82-90 | When `ToUnicode` writes the UTF-16 encoding of some text, exactly that text is sent as characters, after the key event and with no replacement. |
| Hook.KeyboardHook.constructor | server/keydisp/src/windows/mod.rs:116-122 | The hook starts with a fresh, empty iterator. |
| Hook.KeyboardHook.Callback | server/keydisp/src/windows/mod.rs:47-95 | One notification sends exactly `CallbackEvents`. Any message other than key-up or key-down sends nothing. The iterator is empty again afterwards. |
| Hook.KeyboardHook.PushAndDrain | server/keydisp/src/windows/mod.rs:82-90 | The push loop queues the units in order. The drain loop then sends one `Char` per decoded item and ends with the iterator empty. |
| Dispatch.ModifierIndex | server/keydisp/src/main.rs:29-40 | Every slot index is below 4, so indexing `modifier_state` is in bounds. |
| Dispatch.ModifierSlots | server/keydisp/src/main.rs:29-40 | A key has slot i exactly when it is one of that slot's keys: shift 0, control 1, alt 2, caps lock 3. Every other key has no slot. |
| Dispatch.ModifierGlyphs | server/keydisp/src/main.rs:42-67 | Every modifier key has a glyph. Two modifier keys share a slot exactly when they share a glyph, so the left and right keys show the same symbol. |
| Dispatch.HotkeyHasNoGlyph | server/keydisp/src/main.rs:27-67 | The hotkey F10 has no glyph and no modifier slot. |
| Dispatch.SendChar | server/keydisp/src/main.rs:42-67 | The glyph of a key, when it has one, lies in U+2190-U+2423 (Arrows, Miscellaneous Technical, Control Pictures). |
| Dispatch.IsControl | server/keydisp/src/main.rs:137 | `char::is_control`: exactly U+0000-U+001F and U+007F-U+009F, all below U+00A0. |
| Dispatch.IsWhitespace | server/keydisp/src/main.rs:137 | `char::is_whitespace`: the White_Space code points, none between U+00A1 and U+167F or above U+3000. |
| Dispatch.ControlWhitespaceOverlap | server/keydisp/src/main.rs:137 | A character is both a control and white space exactly when it is U+0009-U+000D or U+0085. |
| Dispatch.GlyphsPrintable | server/keydisp/src/main.rs:42-67 | No glyph is a control or white-space character. |
| Dispatch.OutputPrintable | server/keydisp/src/main.rs:135-160 | The closure never sends a control or white-space character. |
| Dispatch.Dispatch | server/keydisp/src/main.rs:122-161 | The closure step keeps exactly four modifier slots. |
| Dispatch.HotkeySetsTarget | server/keydisp/src/main.rs:125-133 | Pressing F10 makes the foreground window the target, whatever the target was. No other event changes the target. |
| Dispatch.HotkeyPressSilent | server/keydisp/src/main.rs:125-155 | The F10 press itself sends nothing and leaves the modifier slots unchanged. |
| Dispatch.Gating | server/keydisp/src/main.rs:135-161 | Unless the foreground window is the target (after the hotkey check), an event sends nothing and leaves the slots unchanged. While no target is chosen, every event other than the F10 press sends nothing. |
| Dispatch.CharRule | server/keydisp/src/main.rs:137-138 | In the target window, a character is sent, unchanged, exactly when it is neither a control character nor white space. |
| Dispatch.ModifierEdge | server/keydisp/src/main.rs:142-150 | In the target window, a modifier key stores its new state in its slot. It sends its glyph exactly when the slot was `Released` before. |
| Dispatch.ModifierSequences | server/keydisp/src/main.rs:142-150 | On one slot, either side's key: a press followed by anything is silent, so repeated presses and a release after a press are silent. From a released slot a release sends the key's glyph, and a release after a release sends the glyph again. |
| Dispatch.OtherKeyRule | server/keydisp/src/main.rs:151-155 | In the target window, any other key sends its glyph when pressed and nothing when released. The slots are unchanged. |
| Dispatch.HotkeyThenChar | server/keydisp/src/main.rs:125-138 | After F10 is pressed in window w, a printable character typed in w is sent, and one typed in any other window is not. |
| Dispatch.Dispatcher.constructor | server/keydisp/src/main.rs:75-76 | The dispatcher starts with no target and all four slots `Released`. |
| Dispatch.Dispatcher.OnEvent | server/keydisp/src/main.rs:122-161 | One event updates the target and the slot array in place and returns the character to send, all as `Dispatch` says. |
| Broadcast.Select | server/keydisp/src/main.rs:92-97 | Filtering never lengthens the list. |
| Broadcast.SelectAtPositions | server/keydisp/src/main.rs:92-97 | The kept (or removed) viewers are exactly the viewers at the kept (or removed) positions. |
| Broadcast.PositionsSound | server/keydisp/src/main.rs:92-97 | Every removed viewer's write failed, and every kept viewer's write succeeded. |
| Broadcast.PositionsComplete | server/keydisp/src/main.rs:92-97 | Every viewer whose write failed is removed, and every viewer whose write succeeded is kept. |
| Broadcast.PositionsIncreasing | server/keydisp/src/main.rs:92-97 | Kept viewers keep their relative order, and so do removed ones. |
| Broadcast.SelectPartition | server/keydisp/src/main.rs:92-97 | Kept and removed viewers together are exactly the viewers before the pass. |
| Broadcast.AllWritesSucceed | server/keydisp/src/main.rs:92-97 | When every write succeeds, nobody is removed. |
| Broadcast.Broadcaster.constructor | server/keydisp/src/main.rs:84-85 | The viewer list starts empty. |
| Broadcast.Broadcaster.Accept | server/keydisp/src/main.rs:112-113 | A new viewer is appended at the end of the list. |
| Broadcast.Broadcaster.Deliver | server/keydisp/src/main.rs:89-97 | Every viewer present before the pass gets the character as a one-character text message, exactly once and in list order. The list becomes the viewers whose write succeeded, and the removed ones are returned. |
| Broadcast.AcceptedLast | server/keydisp/src/main.rs:92-113 | A viewer accepted after the others stays last, and survives a pass exactly when its own write succeeds. |

## Left out

- Windows hook plumbing is not modelled: `SetWindowsHookExW`, `UnhookWindowsHookEx`, `CallNextHookEx`, the `GetMessageW` loop, the thread-local `HOOK` cell and the `transmute` of `l_param` (server/keydisp/src/windows/mod.rs:30, 45, 94, 101-146). These are foreign calls.
- `GetKeyboardState`, `GetKeyState` and `ToUnicode` are not modelled (server/keydisp/src/windows/mod.rs:62-79). The unit count and the buffer they produce are inputs.
- `GetForegroundWindow` is not modelled. The foreground window is a parameter of an opaque type.
- Hook.KeyboardHook.Callback: requires `-1 <= n <= 10`. The source handles -1 and 0, and for any other negative count or a count above ten its push loop reads past the ten-unit buffer and panics.
- Hook.KeyboardHook.Callback: the virtual-key code is restricted to 0..255. A larger code would index past the 256-entry table and panic.
- Only `WM_KEYDOWN` and `WM_KEYUP` are handled, as in the source. `WM_SYSKEYDOWN` and `WM_SYSKEYUP` (keys with Alt held) send nothing.
- VkMap.VkScancodeMapping: the lookup is written entry by entry. The source builds a 0xFF-entry list from literal segments and runs of `None`, asserts its length (server/keydisp/src/windows/mod.rs:421) and copies it into a 256-entry array. The list construction and the length assertion are not modelled; `LastCodeUnmapped` states their consequence.
- Utf16.PairValue: the shift-or of the source is written as a multiply-add, and `ShiftOrIsMulAdd` proves the two agree on 32-bit words.
- Networking is not modelled: the TCP listener, the WebSocket handshake and `write_message` (server/keydisp/src/main.rs:80, 93, 110). The outcome of each write is an input flag.
- Threads, the `Arc<Mutex<...>>`, lock poisoning with its `panic!`, and the mpsc channel between the closure and the broadcaster are not modelled. `OnEvent` returns the character the closure would send. The channel delivers the sent characters to `Deliver` one at a time, in send order.
- Dispatch.IsWhitespace and Dispatch.IsControl are fixed sets of scalar values: the White_Space property and the general category Cc. They are not derived from a Unicode database.
- `println!` logging is not modelled.
- Only the scancodes that the table and the dispatcher mention are declared. The rest of the scancode crate's enumeration is not part of this model.
