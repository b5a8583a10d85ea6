/** The CAN frame text built by `send_canframe` (src/sm_steering_interface.cpp):
  "0x", the identifier in upper-case hexadecimal with at least two digits,
  "#", then exactly two upper-case hexadecimal digits per data byte. The
  text is built and never sent, so the model returns it.

  `ParseCanFrame` is the reading direction; `CanFrameRoundTrip` shows the
  text determines the identifier and the bytes.
 */
module CanFrame {
  import opened Wrappers
  import opened Fsm

  type uint16 = x: int | 0 <= x < 0x1_0000

  /** A decoded frame: identifier and data bytes. */
  datatype Frame = Frame(id: uint16, data: seq<uint8>)

  const HEX_DIGITS: string := "0123456789ABCDEF"

  predicate IsHexDigit(c: char) {
    ('0' <= c <= '9') || ('A' <= c <= 'F')
  }

  predicate AllHexDigits(s: string) {
    forall i | 0 <= i < |s| :: IsHexDigit(s[i])
  }

  /** The value of one upper-case hexadecimal digit, if it is one. */
  function DigitValue(c: char): (r: Option<nat>)
    ensures r.Some? <==> IsHexDigit(c)
    ensures r.Some? ==> r.value < 16
  {
    if '0' <= c <= '9' then Some(c as int - '0' as int)
    else if 'A' <= c <= 'F' then Some(c as int - 'A' as int + 10)
    else None
  }

  function HexDigit(n: nat): (c: char)
    requires n < 16
    ensures IsHexDigit(c) && DigitValue(c) == Some(n)
  {
    HEX_DIGITS[n]
  }

  /** `%X`: the digits of `n`, most significant first, without padding. */
  function HexNoPad(n: nat): (s: string)
    ensures |s| >= 1
    ensures n > 0 ==> s[0] != '0'
    decreases n
  {
    if n < 16 then [HexDigit(n)]
    else HexNoPad(n / 16) + [HexDigit(n % 16)]
  }

  /** `%02X`: as `%X`, left-padded with '0' to two digits. */
  function Hex02(n: nat): (s: string)
    ensures |s| >= 2
    ensures |s| > 2 ==> s[0] != '0'
  {
    if n < 16 then "0" + [HexDigit(n)] else HexNoPad(n)
  }

  /** The two digits of a byte. */
  function ByteText(b: uint8): string {
    [HexDigit(b / 16), HexDigit(b % 16)]
  }

  /** `%02X` prints a byte as exactly its two digits. */
  lemma ByteHex(b: uint8)
    ensures Hex02(b) == ByteText(b)
  {
    if b >= 16 {
      assert HexNoPad(b) == HexNoPad(b / 16) + [HexDigit(b % 16)];
    }
  }

  function Pow16(k: nat): (p: nat)
    ensures p >= 1
  {
    if k == 0 then 1 else 16 * Pow16(k - 1)
  }

  /** A number below 16^k needs at most k digits. */
  lemma {:induction false} HexNoPadLength(n: nat, k: nat)
    requires k >= 1 && n < Pow16(k)
    ensures |HexNoPad(n)| <= k
    decreases k
  {
    if n >= 16 {
      assert k >= 2;
      HexNoPadLength(n / 16, k - 1);
    }
  }

  /** A 16-bit identifier prints as two to four digits, so it fits `idstr`. */
  lemma IdDigits(id: uint16)
    ensures 2 <= |Hex02(id)| <= 4
  {
    assert Pow16(4) == 0x1_0000;
    HexNoPadLength(id, 4);
  }

  /** The bytes' digits, two per byte, in order. */
  function HexBytes(bs: seq<uint8>): (s: string)
    ensures |s| == 2 * |bs|
    decreases |bs|
  {
    if |bs| == 0 then ""
    else HexBytes(bs[..|bs| - 1]) + ByteText(bs[|bs| - 1])
  }

  /** Formatting one more byte extends the text by that byte's `%02X`. */
  lemma HexBytesSnoc(prefix: string, bytes: seq<uint8>, i: nat)
    requires i < |bytes|
    ensures prefix + HexBytes(bytes[..i]) + Hex02(bytes[i]) == prefix + HexBytes(bytes[..i + 1])
  {
    ByteHex(bytes[i]);
    assert bytes[..i + 1][..i] == bytes[..i];
  }

  /** The number of data bytes the loop `for (i = 0; i < dlc; i++)` formats. */
  function Formatted(dlc: int): nat {
    if dlc < 0 then 0 else dlc
  }

  /** The text `send_canframe` builds. The caller must supply at least `dlc`
      bytes; a negative `dlc` formats none. */
  function CanFrameText(id: uint16, bytes: seq<uint8>, dlc: int): (s: string)
    requires dlc <= |bytes|
  {
    IdText(id) + HexBytes(bytes[..Formatted(dlc)])
  }

  /** `sprintf(idstr, "0x%02X#", id)`. */
  function IdText(id: uint16): string {
    "0x" + Hex02(id) + "#"
  }

  /** `send_canframe`, with its formatting loop. */
  method SendCanFrame(id: uint16, bytes: seq<uint8>, dlc: int) returns (str: string)
    requires dlc <= |bytes|
    ensures str == CanFrameText(id, bytes, dlc)
  {
    str := IdText(id);
    var i := 0;
    assert bytes[..0] == [];
    while i < dlc
      invariant 0 <= i <= Formatted(dlc)
      invariant str == IdText(id) + HexBytes(bytes[..i])
    {
      HexBytesSnoc(IdText(id), bytes, i);
      str := str + Hex02(bytes[i]);
      i := i + 1;
    }
  }

  // ------------------------------------------------------------- reading back

  /** The value of a string of hexadecimal digits, most significant first. */
  function HexValue(s: string): (r: Option<nat>)
    decreases |s|
  {
    if |s| == 0 then Some(0)
    else
      match (HexValue(s[..|s| - 1]), DigitValue(s[|s| - 1]))
      case (Some(hi), Some(lo)) => Some(16 * hi + lo)
      case _ => None
  }

  lemma {:induction false} HexNoPadValue(n: nat)
    ensures HexValue(HexNoPad(n)) == Some(n)
    decreases n
  {
    var s := HexNoPad(n);
    if n >= 16 {
      HexNoPadValue(n / 16);
      assert s[..|s| - 1] == HexNoPad(n / 16);
    } else {
      assert s[..0] == "";
    }
  }

  lemma {:induction false} HexNoPadDigits(n: nat)
    ensures AllHexDigits(HexNoPad(n))
    decreases n
  {
    if n >= 16 {
      HexNoPadDigits(n / 16);
    }
  }

  lemma Hex02Digits(n: nat)
    ensures AllHexDigits(Hex02(n))
  {
    HexNoPadDigits(n);
  }

  lemma Hex02Value(n: nat)
    ensures HexValue(Hex02(n)) == Some(n)
  {
    if n < 16 {
      var s := Hex02(n);
      assert s[..1] == "0";
      assert "0"[..0] == "";
      assert HexValue("0") == Some(0);
    } else {
      HexNoPadValue(n);
    }
  }

  /** The bytes from a run of digit pairs, read from the end. */
  function ParseBytes(s: string): (r: Option<seq<uint8>>)
    ensures r.Some? ==> |s| == 2 * |r.value|
    decreases |s|
  {
    if |s| == 0 then Some([])
    else if |s| < 2 then None
    else
      match (ParseBytes(s[..|s| - 2]), DigitValue(s[|s| - 2]), DigitValue(s[|s| - 1]))
      case (Some(init), Some(hi), Some(lo)) => Some(init + [16 * hi + lo])
      case _ => None
  }

  /** Appending one digit pair appends one byte. */
  lemma ParseBytesSnoc(t: string, h: char, l: char)
    requires ParseBytes(t).Some? && IsHexDigit(h) && IsHexDigit(l)
    ensures ParseBytes(t + [h, l]) == Some(ParseBytes(t).value + [16 * DigitValue(h).value + DigitValue(l).value])
  {
    var s := t + [h, l];
    assert s[..|s| - 2] == t;
  }

  /** The two digits of a byte read back as that byte. */
  lemma ByteTextValue(b: uint8)
    ensures IsHexDigit(ByteText(b)[0]) && IsHexDigit(ByteText(b)[1])
    ensures 16 * DigitValue(ByteText(b)[0]).value + DigitValue(ByteText(b)[1]).value == b
  {
    var hi, lo := b / 16, b % 16;
    assert DigitValue(HexDigit(hi)) == Some(hi) && DigitValue(HexDigit(lo)) == Some(lo);
    assert 16 * hi + lo == b;
  }

  /** Appending a byte's digits to a text that reads back appends the byte. */
  lemma HexBytesValueSnoc(init: seq<uint8>, b: uint8)
    requires ParseBytes(HexBytes(init)) == Some(init)
    ensures ParseBytes(HexBytes(init + [b])) == Some(init + [b])
  {
    var t := HexBytes(init);
    var digits := ByteText(b);
    assert (init + [b])[..|init|] == init;
    assert HexBytes(init + [b]) == t + [digits[0], digits[1]];
    ByteTextValue(b);
    ParseBytesSnoc(t, digits[0], digits[1]);
  }

  lemma {:induction false} HexBytesValue(bs: seq<uint8>)
    ensures ParseBytes(HexBytes(bs)) == Some(bs)
    decreases |bs|
  {
    if |bs| > 0 {
      var init, b := bs[..|bs| - 1], bs[|bs| - 1];
      assert bs == init + [b];
      HexBytesValue(init);
      HexBytesValueSnoc(init, b);
    }
  }

  /** The position of the first occurrence of `c` in `s`. */
  function IndexOf(s: string, c: char): (r: Option<nat>)
    ensures r.Some? ==> r.value < |s| && s[r.value] == c
    decreases |s|
  {
    if |s| == 0 then None
    else if s[0] == c then Some(0)
    else match IndexOf(s[1..], c)
      case None => None
      case Some(k) => Some(k + 1)
  }

  lemma {:induction false} IndexOfAfterDigits(digits: string, rest: string)
    requires AllHexDigits(digits)
    ensures IndexOf(digits + "#" + rest, '#') == Some(|digits|)
    decreases |digits|
  {
    if |digits| > 0 {
      assert (digits + "#" + rest)[1..] == digits[1..] + "#" + rest;
      IndexOfAfterDigits(digits[1..], rest);
    }
  }

  /** Reads "0x<id digits>#<byte digit pairs>". */
  function ParseCanFrame(s: string): (r: Option<Frame>)
  {
    if |s| < 2 || s[0] != '0' || s[1] != 'x' then None
    else
      var body := s[2..];
      match IndexOf(body, '#')
      case None => None
      case Some(k) =>
        if k == 0 then None
        else
          match (HexValue(body[..k]), ParseBytes(body[k + 1..]))
          case (Some(id), Some(data)) => if id < 0x1_0000 then Some(Frame(id, data)) else None
          case _ => None
  }

  /** The frame text determines the identifier and exactly the first `dlc`
      bytes: reading it back gives them again. */
  lemma CanFrameRoundTrip(id: uint16, bytes: seq<uint8>, dlc: int)
    requires dlc <= |bytes|
    ensures ParseCanFrame(CanFrameText(id, bytes, dlc)) == Some(Frame(id, bytes[..Formatted(dlc)]))
  {
    var bs := bytes[..Formatted(dlc)];
    var s := CanFrameText(id, bytes, dlc);
    var digits := Hex02(id);
    var data := HexBytes(bs);
    var body := s[2..];
    assert s[0] == '0' && s[1] == 'x';
    assert body == digits + "#" + data;
    Hex02Digits(id);
    IndexOfAfterDigits(digits, data);
    var k := |digits|;
    assert body[..k] == digits;
    assert body[k + 1..] == data;
    Hex02Value(id);
    HexBytesValue(bs);
    calc {
      ParseCanFrame(s);
      match (HexValue(body[..k]), ParseBytes(body[k + 1..]))
      case (Some(v), Some(d)) => if v < 0x1_0000 then Some(Frame(v, d)) else None
      case _ => None;
      Some(Frame(id, bs));
    }
  }

  /** The text's shape: "0x", two to four identifier digits, "#", and two
      digits per formatted byte. */
  lemma CanFrameShape(id: uint16, bytes: seq<uint8>, dlc: int)
    requires dlc <= |bytes|
    ensures var s := CanFrameText(id, bytes, dlc);
      && s[..2] == "0x"
      && 2 <= |Hex02(id)| <= 4
      && s[2 + |Hex02(id)|] == '#'
      && |s| == 3 + |Hex02(id)| + 2 * Formatted(dlc)
  {
    IdDigits(id);
  }
}
