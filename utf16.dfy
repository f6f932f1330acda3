/**
 * UTF-16 reassembly: the decoding rules of `BufferedUtf16Iterator::next`
 * (server/keydisp/src/windows/mod.rs), the encoding they invert (section 2.1
 * of RFC 2781), and the iterator itself as a class over a queue of code units
 * and at most one held-back unit.
 */
module Utf16 {
  import opened Wrappers

  /** A UTF-16 code unit (a Rust `u16`). */
  type U16 = x: int | 0 <= x < 0x1_0000

  predicate IsSurrogate(u: int) { 0xD800 <= u <= 0xDFFF }
  predicate IsLeading(u: int) { 0xD800 <= u <= 0xDBFF }
  predicate IsTrailing(u: int) { 0xDC00 <= u <= 0xDFFF }

  /** One item of the iterator: a scalar value, or the code unit that could not be decoded. */
  type Decoded = Result<char, U16>

  /** One decoding step: its item and the number of pending units it consumes. */
  datatype Step = Step(result: Decoded, used: nat)

  /**
   * The scalar value of a surrogate pair (section 2.2 of RFC 2781, step 5).
   * The source writes `(hi - 0xD800) << 10 | (lo - 0xDC00)`; the low part is
   * below 0x400, so the shift-or is the multiply-add below (see ShiftOrIsMulAdd).
   * The conversion to `char` is checked: this is what `from_u32_unchecked` needs.
   */
  function PairValue(hi: U16, lo: U16): (c: char)
    requires IsLeading(hi) && IsTrailing(lo)
    ensures 0x1_0000 <= c as int <= 0x10_FFFF
  {
    ((hi - 0xD800) * 0x400 + (lo - 0xDC00) + 0x1_0000) as char
  }

  /** On 32-bit words, shifting a 10-bit value up by ten and or-ing in another 10-bit value adds them. */
  lemma ShiftOrIsAdd(a: bv32, b: bv32)
    requires a < 0x400 && b < 0x400
    ensures ((a << 10) | b) as int == (a as int) * 0x400 + b as int
  {
    assert (a << 10) | b == (a << 10) + b;
    assert (a << 10) as int == (a as int) * 0x400;
    assert (a << 10) < 0x10_0000;
  }

  lemma SmallToBv(x: int)
    requires 0 <= x < 0x400
    ensures (x as bv32) as int == x && x as bv32 < 0x400
  {
  }

  /** The bit-level formula of the source, on 32-bit words, gives the value PairValue computes. */
  lemma ShiftOrIsMulAdd(hi: U16, lo: U16)
    requires IsLeading(hi) && IsTrailing(lo)
    ensures ((((hi - 0xD800) as bv32) << 10) | ((lo - 0xDC00) as bv32)) as int + 0x1_0000
            == PairValue(hi, lo) as int
  {
    SmallToBv(hi - 0xD800);
    SmallToBv(lo - 0xDC00);
    ShiftOrIsAdd((hi - 0xD800) as bv32, (lo - 0xDC00) as bv32);
  }

  /**
   * What one call of `next` yields from the pending code units `us` (the held
   * unit first, then the queue), and how many of them it consumes.
   */
  function DecodeNext(us: seq<U16>): (r: Option<Step>)
    ensures r.None? <==> us == []
    ensures r.Some? ==> 1 <= r.value.used <= 2 && r.value.used <= |us|
  {
    if us == [] then None
    else
      var u := us[0];
      if u < 0xD800 || 0xDFFF < u then Some(Step(Ok(u as char), 1))
      else if u >= 0xDC00 then Some(Step(Err(u), 1))
      else if |us| == 1 then Some(Step(Err(u), 1))
      else
        var u2 := us[1];
        if u2 < 0xDC00 || u2 > 0xDFFF then Some(Step(Err(u), 1))
        else Some(Step(Ok(PairValue(u, u2)), 2))
  }

  /** Every item the iterator yields from `us` when it is drained completely. */
  function DecodeAll(us: seq<U16>): (rs: seq<Decoded>)
    ensures |rs| <= |us| <= 2 * |rs|
    decreases |us|
  {
    match DecodeNext(us)
    case None => []
    case Some(s) => [s.result] + DecodeAll(us[s.used..])
  }

  /** The UTF-16 encoding of one scalar value (section 2.1 of RFC 2781). */
  function EncodeChar(c: char): (us: seq<U16>)
    ensures 1 <= |us| <= 2
  {
    var v := c as int;
    if v < 0x1_0000 then [v]
    else
      var w := v - 0x1_0000;
      [0xD800 + w / 0x400, 0xDC00 + w % 0x400]
  }

  function EncodeAll(cs: seq<char>): (us: seq<U16>)
    ensures |cs| <= |us| <= 2 * |cs|
  {
    if cs == [] then [] else EncodeChar(cs[0]) + EncodeAll(cs[1..])
  }

  /** The items of a successful decoding of `cs`. */
  function AllOk(cs: seq<char>): seq<Decoded>
  {
    seq(|cs|, i requires 0 <= i < |cs| => Ok(cs[i]))
  }

  /** The scalar values of items that all decoded successfully. */
  function Values(rs: seq<Decoded>): seq<char>
    requires forall i :: 0 <= i < |rs| ==> rs[i].Ok?
  {
    if rs == [] then [] else [rs[0].value] + Values(rs[1..])
  }

  /** An item is an error exactly for a surrogate that does not start a valid pair; it then consumes one unit. */
  lemma ErrorCases(us: seq<U16>)
    requires us != []
    ensures DecodeNext(us).value.result.Err?
            <==> IsSurrogate(us[0]) && !(IsLeading(us[0]) && |us| >= 2 && IsTrailing(us[1]))
    ensures DecodeNext(us).value.result.Err? ==> DecodeNext(us).value == Step(Err(us[0]), 1)
  {
  }

  /** The encoding of one scalar value, followed by anything, decodes back to that value. */
  lemma DecodeEncodedChar(c: char, rest: seq<U16>)
    ensures DecodeNext(EncodeChar(c) + rest) == Some(Step(Ok(c), |EncodeChar(c)|))
  {
    var v := c as int;
    if v >= 0x1_0000 {
      var w := v - 0x1_0000;
      var hi, lo := 0xD800 + w / 0x400, 0xDC00 + w % 0x400;
      assert (hi - 0xD800) * 0x400 + (lo - 0xDC00) == w;
      assert (EncodeChar(c) + rest)[..2] == [hi, lo];
    }
  }

  /** A successfully decoded value re-encodes to exactly the units that were consumed. */
  lemma DecodedCharReencodes(us: seq<U16>)
    requires DecodeNext(us).Some? && DecodeNext(us).value.result.Ok?
    ensures us[..DecodeNext(us).value.used] == EncodeChar(DecodeNext(us).value.result.value)
  {
    var s := DecodeNext(us).value;
    if s.used == 2 {
      var hi: int, lo: int := us[0], us[1];
      var w: int := (hi - 0xD800) * 0x400 + (lo - 0xDC00);
      assert w / 0x400 == hi - 0xD800 && w % 0x400 == lo - 0xDC00;
    }
  }

  /** Round trip: decoding the UTF-16 encoding of any scalar sequence gives it back, in order. */
  lemma {:induction false} RoundTrip(cs: seq<char>)
    ensures DecodeAll(EncodeAll(cs)) == AllOk(cs)
  {
    if cs != [] {
      var head, rest := EncodeChar(cs[0]), EncodeAll(cs[1..]);
      DecodeEncodedChar(cs[0], rest);
      assert (head + rest)[|head|..] == rest;
      RoundTrip(cs[1..]);
    }
  }

  /** Re-encoding the values of a non-empty error-free item sequence starts with its first value. */
  lemma EncodeValuesCons(rs: seq<Decoded>)
    requires rs != [] && forall i :: 0 <= i < |rs| ==> rs[i].Ok?
    ensures EncodeAll(Values(rs)) == EncodeChar(rs[0].value) + EncodeAll(Values(rs[1..]))
  {
    var vs := Values(rs);
    assert vs == [rs[0].value] + Values(rs[1..]);
    assert vs[1..] == Values(rs[1..]);
  }

  /** Conversely: units that decode without a single error are the encoding of what they decode to. */
  lemma {:induction false} ErrorFreeIsEncoding(us: seq<U16>)
    requires forall i :: 0 <= i < |DecodeAll(us)| ==> DecodeAll(us)[i].Ok?
    ensures EncodeAll(Values(DecodeAll(us))) == us
    decreases |us|
  {
    if us != [] {
      var s := DecodeNext(us).value;
      var rest := us[s.used..];
      var rs := DecodeAll(us);
      assert rs == [s.result] + DecodeAll(rest);
      assert rs[0] == s.result && rs[0].Ok?;
      assert rs[1..] == DecodeAll(rest);
      assert forall i :: 0 <= i < |DecodeAll(rest)| ==> DecodeAll(rest)[i] == rs[i + 1];
      ErrorFreeIsEncoding(rest);
      DecodedCharReencodes(us);
      EncodeValuesCons(rs);
      assert us == us[..s.used] + rest;
    }
  }

  /**
   * The reassembly buffer of the keyboard hook. Units are queued by
   * `PushU16` and decoded one item at a time by `Next`; a unit read ahead
   * after a leading surrogate, but not part of a pair, is held back in
   * `decodingBuf` and examined first on the next call.
   */
  class BufferedUtf16Iterator {
    var buffer: seq<U16>
    var decodingBuf: Option<U16>

    /** The units not yet decoded, in the order `Next` examines them. */
    function Pending(): seq<U16>
      reads this
    {
      match decodingBuf
      case Some(u) => [u] + buffer
      case None => buffer
    }

    constructor ()
      ensures buffer == [] && decodingBuf == None
      ensures Pending() == []
    {
      buffer := [];
      decodingBuf := None;
    }

    method PushU16(item: U16)
      modifies this
      ensures buffer == old(buffer) + [item]
      ensures decodingBuf == old(decodingBuf)
      ensures Pending() == old(Pending()) + [item]
    {
      buffer := buffer + [item];
    }

    method Next() returns (r: Option<Decoded>)
      modifies this
      ensures r.None? <==> old(decodingBuf).None? && old(buffer) == []
      ensures r.None? ==> buffer == old(buffer) && decodingBuf == old(decodingBuf)
      ensures r.Some? ==> |Pending()| < |old(Pending())|
      ensures match DecodeNext(old(Pending()))
              case None => r == None
              case Some(s) => r == Some(s.result) && Pending() == old(Pending())[s.used..]
      ensures var p := old(Pending());
              decodingBuf == if |p| >= 2 && IsLeading(p[0]) && !IsTrailing(p[1]) then Some(p[1]) else None
    {
      var u: U16;
      match decodingBuf {
        case Some(held) =>
          u := held;
          decodingBuf := None;
        case None =>
          if buffer == [] {
            return None;
          }
          u := buffer[0];
          buffer := buffer[1..];
      }
      if u < 0xD800 || 0xDFFF < u {
        r := Some(Ok(u as char));
      } else if u >= 0xDC00 {
        r := Some(Err(u));
      } else if buffer == [] {
        r := Some(Err(u));
      } else {
        var u2 := buffer[0];
        buffer := buffer[1..];
        if u2 < 0xDC00 || u2 > 0xDFFF {
          decodingBuf := Some(u2);
          r := Some(Err(u));
        } else {
          r := Some(Ok(PairValue(u, u2)));
        }
      }
    }
  }
}
