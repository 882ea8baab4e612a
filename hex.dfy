/**
 * Hexadecimal rendering and parsing of byte strings: `bytesToHexString`
 * and `hexStringToByteArray` of the plugin, and the upper-case rendering the
 * card emulator classifies commands by.
 */
module HexCodec {
  import opened Bytes

  /** The lower-case digit `String.format("%x", …)` prints for `n`. */
  function HexDigit(n: int): (c: char)
    requires 0 <= n < 16
  {
    if n < 10 then ('0' as int + n) as char else ('a' as int + n - 10) as char
  }

  /** The characters `Character.digit(c, 16)` accepts among ASCII. */
  predicate IsHexDigit(c: char)
  {
    '0' <= c <= '9' || 'a' <= c <= 'f' || 'A' <= c <= 'F'
  }

  /** `Character.digit(c, 16)` on an ASCII hex digit. */
  function DigitValue(c: char): (v: int)
    requires IsHexDigit(c)
    ensures 0 <= v < 16
  {
    if c <= '9' then c as int - '0' as int
    else if c <= 'F' then c as int - 'A' as int + 10
    else c as int - 'a' as int + 10
  }

  /** `String.toUpperCase` on one character of a hex rendering. */
  function UpperChar(c: char): char
  {
    if 'a' <= c <= 'z' then (c as int - 'a' as int + 'A' as int) as char else c
  }

  function ToUpper(s: string): (r: string)
  {
    seq(|s|, i requires 0 <= i < |s| => UpperChar(s[i]))
  }

  /** `String.format("%02x", b)`: two lower-case digits, high nibble first. */
  function ByteHex(b: byte): string
  {
    [HexDigit(b / 16), HexDigit(b % 16)]
  }

  /** The nibble that character `i` of a rendering stands for: the high nibble at even positions. */
  function Nibble(bs: seq<byte>, i: int): (n: int)
    requires 0 <= i < 2 * |bs|
    ensures 0 <= n < 16
  {
    if i % 2 == 0 then bs[i / 2] / 16 else bs[i / 2] % 16
  }

  /** What the `StringBuilder` loops build: each byte's two digits, in order. */
  function Hex(bs: seq<byte>): (h: string)
    ensures |h| == 2 * |bs|
  {
    seq(2 * |bs|, i requires 0 <= i < 2 * |bs| => HexDigit(Nibble(bs, i)))
  }

  /** The inputs `hexStringToByteArray` is written for. */
  predicate IsHexString(s: string)
  {
    |s| % 2 == 0 && forall i :: 0 <= i < |s| ==> IsHexDigit(s[i])
  }

  /** The byte each digit pair denotes, high digit first. */
  function ParseHex(s: string): (bs: seq<byte>)
    requires IsHexString(s)
    ensures |bs| == |s| / 2
  {
    seq(|s| / 2, k requires 0 <= k < |s| / 2 => 16 * DigitValue(s[2 * k]) + DigitValue(s[2 * k + 1]))
  }

  /** Appending bytes appends their digits, as the `StringBuilder` loops do one byte at a time. */
  lemma HexConcat(a: seq<byte>, b: seq<byte>)
    ensures Hex(a + b) == Hex(a) + Hex(b)
  {
    forall i | 0 <= i < 2 * |a + b| ensures Hex(a + b)[i] == (Hex(a) + Hex(b))[i] {
      var k := i / 2;
      if k < |a| {
        assert (a + b)[k] == a[k];
      } else {
        assert (a + b)[k] == b[k - |a|];
        assert (i - 2 * |a|) / 2 == k - |a|;
        assert Nibble(a + b, i) == Nibble(b, i - 2 * |a|);
      }
    }
  }

  /** One byte renders as `ByteHex`, high digit first. */
  lemma HexSingle(b: byte)
    ensures Hex([b]) == ByteHex(b)
  {
    assert Hex([b])[0] == HexDigit(b / 16);
  }

  /** Two digits per byte: byte `k` occupies positions `2k` and `2k + 1`. */
  lemma HexAt(bs: seq<byte>, k: int)
    requires 0 <= k < |bs|
    ensures Hex(bs)[2 * k] == HexDigit(bs[k] / 16) && Hex(bs)[2 * k + 1] == HexDigit(bs[k] % 16)
  {
    assert (2 * k + 1) / 2 == k;
  }

  /** Only the empty byte string renders as `""`. */
  lemma HexEmpty(bs: seq<byte>)
    ensures Hex(bs) == [] <==> bs == []
  {
  }

  /** Each digit, in either letter case, reads back as the nibble it renders. */
  lemma DigitRoundTrip(n: int)
    requires 0 <= n < 16
    ensures IsHexDigit(HexDigit(n)) && DigitValue(HexDigit(n)) == n
    ensures IsHexDigit(UpperChar(HexDigit(n))) && DigitValue(UpperChar(HexDigit(n))) == n
    ensures '0' <= HexDigit(n) <= '9' || 'a' <= HexDigit(n) <= 'f'
  {
  }

  /** Rendering the value of a digit gives the digit back, up to letter case. */
  lemma DigitRendered(c: char)
    requires IsHexDigit(c)
    ensures UpperChar(HexDigit(DigitValue(c))) == UpperChar(c)
  {
  }

  /** The rendering uses only lower-case hex digits, so it is a hex string. */
  lemma HexIsHexString(bs: seq<byte>)
    ensures IsHexString(Hex(bs))
    ensures forall i :: 0 <= i < |Hex(bs)| ==> '0' <= Hex(bs)[i] <= '9' || 'a' <= Hex(bs)[i] <= 'f'
  {
    forall i | 0 <= i < |Hex(bs)|
      ensures IsHexDigit(Hex(bs)[i]) && ('0' <= Hex(bs)[i] <= '9' || 'a' <= Hex(bs)[i] <= 'f')
    {
      DigitRoundTrip(Nibble(bs, i));
    }
  }

  lemma ParseLowerHex(bs: seq<byte>)
    ensures IsHexString(Hex(bs)) && ParseHex(Hex(bs)) == bs
  {
    HexIsHexString(bs);
    var h := Hex(bs);
    forall k | 0 <= k < |bs| ensures ParseHex(h)[k] == bs[k] {
      HexAt(bs, k);
      DigitRoundTrip(bs[k] / 16);
      DigitRoundTrip(bs[k] % 16);
    }
  }

  lemma ParseUpperHex(bs: seq<byte>)
    ensures IsHexString(ToUpper(Hex(bs))) && ParseHex(ToUpper(Hex(bs))) == bs
  {
    var u := ToUpper(Hex(bs));
    forall i | 0 <= i < |u| ensures IsHexDigit(u[i]) {
      DigitRoundTrip(Nibble(bs, i));
    }
    forall k | 0 <= k < |bs| ensures ParseHex(u)[k] == bs[k] {
      HexAt(bs, k);
      DigitRoundTrip(bs[k] / 16);
      DigitRoundTrip(bs[k] % 16);
    }
  }

  /** Parsing undoes rendering, in either letter case. */
  lemma ParseHexOfHex(bs: seq<byte>)
    ensures IsHexString(Hex(bs)) && ParseHex(Hex(bs)) == bs
    ensures IsHexString(ToUpper(Hex(bs))) && ParseHex(ToUpper(Hex(bs))) == bs
  {
    ParseLowerHex(bs);
    ParseUpperHex(bs);
  }

  /** Rendering undoes parsing, up to the letter case of the digits. */
  lemma RenderParseHex(s: string)
    requires IsHexString(s)
    ensures ToUpper(Hex(ParseHex(s))) == ToUpper(s)
  {
    var bs := ParseHex(s);
    forall i | 0 <= i < |s| ensures ToUpper(Hex(bs))[i] == ToUpper(s)[i] {
      var k := i / 2;
      assert bs[k] == 16 * DigitValue(s[2 * k]) + DigitValue(s[2 * k + 1]);
      assert Nibble(bs, i) == DigitValue(s[i]);
      DigitRendered(s[i]);
    }
  }

  /** Equal upper-case renderings of two bytes mean equal bytes. */
  lemma UpperByteHexInjective(a: byte, b: byte)
    requires UpperChar(HexDigit(a / 16)) == UpperChar(HexDigit(b / 16))
    requires UpperChar(HexDigit(a % 16)) == UpperChar(HexDigit(b % 16))
    ensures a == b
  {
    DigitRoundTrip(a / 16);
    DigitRoundTrip(b / 16);
    DigitRoundTrip(a % 16);
    DigitRoundTrip(b % 16);
  }

  /**
   * Prefix matching on the upper-case rendering is prefix matching on the
   * bytes: `Hex(cmd).toUpperCase().startsWith(Hex(p).toUpperCase())` exactly
   * when `cmd` begins with `p`.
   */
  lemma HexPrefix(p: seq<byte>, cmd: seq<byte>)
    ensures ToUpper(Hex(p)) <= ToUpper(Hex(cmd)) <==> p <= cmd
  {
    var hp, hc := ToUpper(Hex(p)), ToUpper(Hex(cmd));
    if p <= cmd {
      forall i | 0 <= i < |hp| ensures hp[i] == hc[i] {
        assert p[i / 2] == cmd[i / 2];
      }
    }
    if hp <= hc {
      forall k | 0 <= k < |p| ensures p[k] == cmd[k] {
        HexAt(p, k);
        HexAt(cmd, k);
        assert hp[2 * k] == hc[2 * k] && hp[2 * k + 1] == hc[2 * k + 1];
        UpperByteHexInjective(p[k], cmd[k]);
      }
      assert p == cmd[..|p|];
    }
  }

  /** The plugin's `bytesToHexString`: `""` for no bytes, else two lower-case digits per byte. */
  method BytesToHexString(bytes: seq<byte>) returns (s: string)
    ensures s == Hex(bytes)
    ensures |s| == 2 * |bytes|
    ensures bytes == [] ==> s == ""
    ensures IsHexString(s) && ParseHex(s) == bytes
  {
    if |bytes| == 0 {
      return "";
    }
    s := "";
    var i := 0;
    while i < |bytes|
      invariant 0 <= i <= |bytes|
      invariant s == Hex(bytes[..i])
    {
      assert bytes[..i + 1] == bytes[..i] + [bytes[i]];
      HexConcat(bytes[..i], [bytes[i]]);
      HexSingle(bytes[i]);
      s := s + ByteHex(bytes[i]);
      i := i + 1;
    }
    assert bytes[..i] == bytes;
    ParseHexOfHex(bytes);
  }

  /** The plugin's `hexStringToByteArray`, on the even-length hex strings it is written for. */
  method HexStringToByteArray(s: string) returns (data: seq<byte>)
    requires IsHexString(s)
    ensures |data| == |s| / 2
    ensures data == ParseHex(s)
    ensures ToUpper(Hex(data)) == ToUpper(s)
  {
    var len := |s|;
    var a := new byte[len / 2];
    var i := 0;
    while i < len
      invariant 0 <= i <= len && i % 2 == 0
      invariant forall k :: 0 <= k < i / 2 ==> a[k] == ParseHex(s)[k]
    {
      a[i / 2] := 16 * DigitValue(s[i]) + DigitValue(s[i + 1]);
      i := i + 2;
    }
    data := a[..];
    RenderParseHex(s);
  }
}
