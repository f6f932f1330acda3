/**
 * The event emission of the low-level keyboard hook (`wh_keyboard_callback`,
 * server/keydisp/src/windows/mod.rs). One notification becomes the ordered
 * sequence of events handed to the callback. The operating-system queries
 * are parameters: the message kind `wParam`, the virtual-key code, and the
 * result of `ToUnicode` as a unit count `n` and the ten-unit buffer it wrote.
 */
module Hook {
  import opened Wrappers
  import opened Common
  import opened Utf16
  import opened VkMap

  const WM_KEYDOWN: int := 0x0100
  const WM_KEYUP: int := 0x0101
  const REPLACEMENT_CHARACTER: char := '�'
  /** The length of the buffer handed to `ToUnicode`. */
  const BUFFER_LEN: nat := 10

  /** What is sent for one decoded item: its value, or U+FFFD for a unit that could not be decoded. */
  function CharOrReplacement(d: Decoded): char
  {
    match d
    case Ok(c) => c
    case Err(_) => REPLACEMENT_CHARACTER
  }

  /** The `Char` events the drain loop sends for the items `rs`, one per item, in order. */
  function CharEvents(rs: seq<Decoded>): (es: seq<Event>)
    ensures |es| == |rs|
    ensures forall i :: 0 <= i < |rs| ==> es[i] == Char(CharOrReplacement(rs[i]))
  {
    if rs == [] then [] else [Char(CharOrReplacement(rs[0]))] + CharEvents(rs[1..])
  }

  /** The `Key` event of a mapped virtual key, or nothing for an unmapped one. */
  function KeyEvent(mapped: Option<Scancode>, state: KeyState): seq<Event>
  {
    match mapped
    case Some(sc) => [Key(sc, state)]
    case None => []
  }

  /**
   * The events of one notification when `pending` units were left in the
   * reassembly buffer: the key event, and after a key-down that produced
   * characters, one `Char` per item decoded from the pending and new units.
   */
  function CallbackEvents(wParam: int, vk: VirtualKey, n: int, units: seq<U16>, pending: seq<U16>): (es: seq<Event>)
    requires -1 <= n <= |units|
    ensures wParam != WM_KEYUP && wParam != WM_KEYDOWN ==> es == []
    ensures |es| <= 1 + (if n > 0 then |pending| + n else 0)
  {
    var mapped := VkScancodeMapping(vk);
    if wParam == WM_KEYUP then KeyEvent(mapped, Released)
    else if wParam == WM_KEYDOWN then
      KeyEvent(mapped, Pressed) + (if n == -1 || n == 0 then [] else CharEvents(DecodeAll(pending + units[..n])))
    else []
  }

  /** Key-up sends one `Released` event for a mapped key, nothing for an unmapped one, and never a character. */
  lemma KeyUpEvents(vk: VirtualKey, n: int, units: seq<U16>, pending: seq<U16>)
    requires -1 <= n <= |units|
    ensures var es := CallbackEvents(WM_KEYUP, vk, n, units, pending);
            |es| <= 1
            && (es != [] <==> VkScancodeMapping(vk).Some?)
            && forall e | e in es :: e == Key(VkScancodeMapping(vk).value, Released)
  {
  }

  /**
   * Key-down sends its `Pressed` event first when the key is mapped, and
   * every event after it is a character.
   */
  lemma KeyDownOrder(vk: VirtualKey, n: int, units: seq<U16>, pending: seq<U16>)
    requires -1 <= n <= |units|
    ensures var es := CallbackEvents(WM_KEYDOWN, vk, n, units, pending);
            var k := if VkScancodeMapping(vk).Some? then 1 else 0;
            k <= |es|
            && (k == 1 ==> es[0] == Key(VkScancodeMapping(vk).value, Pressed))
            && forall i :: k <= i < |es| ==> es[i].Char?
  {
  }

  /** A dead key (-1) or a key without a character (0) sends no character. */
  lemma NoCharsWithoutUnits(wParam: int, vk: VirtualKey, n: int, units: seq<U16>, pending: seq<U16>)
    requires n == -1 || n == 0
    requires n <= |units|
    ensures forall e | e in CallbackEvents(wParam, vk, n, units, pending) :: e.Key?
  {
  }

  /**
   * After a key-down that wrote `n > 0` units, the characters sent are one
   * per item decoded from the pending and new units, in order, with U+FFFD
   * for every error; so there are between half as many and as many of
   * them as units.
   */
  lemma CharsPerItem(vk: VirtualKey, n: int, units: seq<U16>, pending: seq<U16>)
    requires 0 < n <= |units|
    ensures var es := CallbackEvents(WM_KEYDOWN, vk, n, units, pending);
            var k := |KeyEvent(VkScancodeMapping(vk), Pressed)|;
            var rs := DecodeAll(pending + units[..n]);
            |es| == k + |rs|
            && |pending| + n <= 2 * |rs| && |rs| <= |pending| + n
            && forall i :: 0 <= i < |rs| ==>
                 es[k + i] == Char(if rs[i].Ok? then rs[i].value else REPLACEMENT_CHARACTER)
  {
  }

  /** One call of `next` sends the first of the remaining characters. */
  lemma DrainStep(p: seq<U16>)
    requires p != []
    ensures CharEvents(DecodeAll(p))
            == [Char(CharOrReplacement(DecodeNext(p).value.result))] + CharEvents(DecodeAll(p[DecodeNext(p).value.used..]))
  {
    var s := DecodeNext(p).value;
    assert DecodeAll(p) == [s.result] + DecodeAll(p[s.used..]);
    assert ([s.result] + DecodeAll(p[s.used..]))[1..] == DecodeAll(p[s.used..]);
  }

  /**
   * A surrogate pair split across two notifications is not reassembled:
   * the buffer is drained after the first, so each half is sent as U+FFFD.
   */
  lemma SplitPairReplaced(vk: VirtualKey, hi: U16, lo: U16)
    requires IsLeading(hi) && IsTrailing(lo)
    ensures var k := KeyEvent(VkScancodeMapping(vk), Pressed);
            CallbackEvents(WM_KEYDOWN, vk, 1, [hi], []) == k + [Char(REPLACEMENT_CHARACTER)]
            && CallbackEvents(WM_KEYDOWN, vk, 1, [lo], []) == k + [Char(REPLACEMENT_CHARACTER)]
  {
    assert [] + [hi][..1] == [hi];
    assert [] + [lo][..1] == [lo];
    assert DecodeAll([hi]) == [Err(hi)] + DecodeAll([hi][1..]);
    assert DecodeAll([lo]) == [Err(lo)] + DecodeAll([lo][1..]);
  }

  /** The events a text sends: one `Char` per scalar value, in order. */
  function TextEvents(cs: seq<char>): (es: seq<Event>)
    ensures |es| == |cs| && forall i :: 0 <= i < |cs| ==> es[i] == Char(cs[i])
  {
    seq(|cs|, i requires 0 <= i < |cs| => Char(cs[i]))
  }

  /**
   * Typed text survives: when the buffer is empty and `ToUnicode` writes the
   * UTF-16 encoding of some scalar values, exactly those values are sent as
   * characters, in order and without replacement, after the key event.
   */
  lemma TypedText(vk: VirtualKey, n: int, units: seq<U16>, cs: seq<char>)
    requires 0 < n <= |units| && units[..n] == EncodeAll(cs)
    ensures CallbackEvents(WM_KEYDOWN, vk, n, units, []) == KeyEvent(VkScancodeMapping(vk), Pressed) + TextEvents(cs)
  {
    assert [] + units[..n] == EncodeAll(cs);
    RoundTrip(cs);
    assert CharEvents(AllOk(cs)) == TextEvents(cs);
  }

  /** The key event of a notification: sent only when the table maps the virtual key. */
  method SendKey(vkCode: VirtualKey, state: KeyState) returns (events: seq<Event>)
    ensures events == KeyEvent(VkScancodeMapping(vkCode), state)
  {
    events := [];
    var mapped := VkScancodeMapping(vkCode);
    if mapped.Some? {
      events := events + [Key(mapped.value, state)];
    }
  }

  /**
   * The hook's state: the reassembly buffer, shared by all notifications.
   * Between notifications it is empty.
   */
  class KeyboardHook {
    const charIter: BufferedUtf16Iterator

    ghost predicate Valid()
      reads this, charIter
    {
      charIter.Pending() == []
    }

    constructor ()
      ensures Valid() && fresh(charIter)
    {
      charIter := new BufferedUtf16Iterator();
    }

    /**
     * One notification: sends the key event, and after a key-down that
     * produced units, pushes them and drains the buffer completely.
     */
    method Callback(wParam: int, vkCode: VirtualKey, n: int, units: seq<U16>) returns (events: seq<Event>)
      requires Valid()
      requires |units| == BUFFER_LEN && -1 <= n <= BUFFER_LEN
      modifies charIter
      ensures Valid()
      ensures events == CallbackEvents(wParam, vkCode, n, units, [])
    {
      events := [];
      if wParam == WM_KEYUP {
        events := SendKey(vkCode, Released);
      } else if wParam == WM_KEYDOWN {
        events := SendKey(vkCode, Pressed);
        if n != -1 && n != 0 {
          var chars := PushAndDrain(units[..n]);
          events := events + chars;
        }
      }
    }

    /** The `n > 0` branch: queue the units `ToUnicode` wrote, then send one `Char` per item until `next` is `None`. */
    method PushAndDrain(us: seq<U16>) returns (chars: seq<Event>)
      modifies charIter
      ensures chars == CharEvents(DecodeAll(old(charIter.Pending()) + us))
      ensures charIter.Pending() == []
    {
      ghost var start := charIter.Pending();
      for i := 0 to |us|
        invariant charIter.Pending() == start + us[..i]
      {
        charIter.PushU16(us[i]);
      }
      assert us[..|us|] == us;
      chars := [];
      while true
        invariant CharEvents(DecodeAll(start + us)) == chars + CharEvents(DecodeAll(charIter.Pending()))
        decreases |charIter.Pending()|
      {
        ghost var p := charIter.Pending();
        var r := charIter.Next();
        match r {
          case None => break;
          case Some(d) =>
            DrainStep(p);
            chars := chars + [Char(CharOrReplacement(d))];
        }
      }
    }
  }
}
