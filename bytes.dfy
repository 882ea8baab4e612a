/**
 * Bytes as the plugin handles them, and the UTF-8 encoding that
 * `String.getBytes(StandardCharsets.UTF_8)` performs.
 *
 * Java's `byte` is signed; every place the source inspects a byte it either
 * compares it with a `(byte)` constant, masks it, or prints it with `%02x`
 * (which prints the unsigned value), so the model uses the unsigned view.
 */
module Bytes {

  type byte = b: int | 0 <= b < 256

  /** Java's `(byte) n` cast followed by reading the byte back unsigned. */
  function TruncateToByte(n: nat): (b: byte)
    ensures n < 256 ==> b == n
    ensures (b - n) % 256 == 0
  {
    n % 256
  }

  /** The bytes of one Unicode scalar value in UTF-8. */
  function EncodeScalar(c: char): (r: seq<byte>)
    ensures 1 <= |r| <= 4
    ensures |r| == 1 <==> (c as int) < 0x80
    ensures |r| == 1 ==> r[0] == c as int
  {
    var cp := c as int;
    if cp < 0x80 then [cp]
    else if cp < 0x800 then [0xC0 + cp / 0x40, 0x80 + cp % 0x40]
    else if cp < 0x1_0000 then [0xE0 + cp / 0x1000, 0x80 + (cp / 0x40) % 0x40, 0x80 + cp % 0x40]
    else [0xF0 + cp / 0x4_0000, 0x80 + (cp / 0x1000) % 0x40, 0x80 + (cp / 0x40) % 0x40, 0x80 + cp % 0x40]
  }

  /** `s.getBytes(StandardCharsets.UTF_8)`. */
  function Utf8Encode(s: string): seq<byte>
  {
    if s == [] then [] else EncodeScalar(s[0]) + Utf8Encode(s[1..])
  }

  /** Encoding distributes over concatenation. */
  lemma {:induction false} Utf8EncodeConcat(a: string, b: string)
    ensures Utf8Encode(a + b) == Utf8Encode(a) + Utf8Encode(b)
  {
    if a == [] {
      assert a + b == b;
    } else {
      assert (a + b)[0] == a[0];
      assert (a + b)[1..] == a[1..] + b;
      Utf8EncodeConcat(a[1..], b);
    }
  }

  /** Each character takes between one and four bytes. */
  lemma {:induction false} Utf8EncodeLength(s: string)
    ensures |s| <= |Utf8Encode(s)| <= 4 * |s|
    ensures s == [] <==> Utf8Encode(s) == []
  {
    if s != [] {
      Utf8EncodeLength(s[1..]);
    }
  }

  predicate IsAscii(s: string)
  {
    forall i :: 0 <= i < |s| ==> (s[i] as int) < 0x80
  }

  /** An ASCII string encodes to its character codes, one byte each. */
  lemma {:induction false} Utf8EncodeAscii(s: string)
    requires IsAscii(s)
    ensures |Utf8Encode(s)| == |s|
    ensures forall i :: 0 <= i < |s| ==> Utf8Encode(s)[i] == s[i] as int
  {
    if s != [] {
      Utf8EncodeAscii(s[1..]);
    }
  }

  /** `System.arraycopy(src, 0, dst, at, src.length)`. */
  method CopyInto(src: seq<byte>, dst: array<byte>, at: nat)
    requires at + |src| <= dst.Length
    modifies dst
    ensures dst[at..at + |src|] == src
    ensures forall k :: 0 <= k < dst.Length && !(at <= k < at + |src|) ==> dst[k] == old(dst[k])
  {
    var i := 0;
    while i < |src|
      invariant 0 <= i <= |src|
      invariant forall k :: at <= k < at + i ==> dst[k] == src[k - at]
      invariant forall k :: 0 <= k < dst.Length && !(at <= k < at + i) ==> dst[k] == old(dst[k])
    {
      dst[at + i] := src[i];
      i := i + 1;
    }
  }
}
