/** Bytes, 16/32-bit words and their little-endian encodings, as used by the
    container header writer (SetLE16 and SetLE32 in multijack.cpp). */
module Bytes {

  /** One octet of the container file or of a memory buffer. */
  type byte = b: int | 0 <= b < 256

  /** An unsigned 32-bit word (uint32_t, jack_nframes_t, and the bit pattern of a float sample). */
  type word = w: int | 0 <= w < 0x1_0000_0000

  const TWO16: int := 0x1_0000
  const TWO32: int := 0x1_0000_0000

  /** x converted to uint32_t (or unsigned int): reduced modulo 2^32. */
  function Uint32(x: int): (w: word)
    ensures 0 <= x < TWO32 ==> w == x
    ensures (w - x) % TWO32 == 0
  {
    x % TWO32
  }

  /** x converted to a 32-bit int: reduced modulo 2^32 into [-2^31, 2^31). */
  function Int32(x: int): (i: int)
    ensures -0x8000_0000 <= i < 0x8000_0000
    ensures -0x8000_0000 <= x < 0x8000_0000 ==> i == x
    ensures (i - x) % TWO32 == 0
  {
    var u := x % TWO32;
    if u >= 0x8000_0000 then u - TWO32 else u
  }

  /** Byte k (0 = least significant) of the unsigned reduction of x: what
      `char((x >> 8k) & 0xFF)` yields once x has been converted to an unsigned type. */
  function ByteOf(x: int, k: nat): (b: byte)
    requires k < 4
  {
    var u := x % TWO32;
    if k == 0 then u % 256
    else if k == 1 then (u / 256) % 256
    else if k == 2 then (u / 256 / 256) % 256
    else (u / 256 / 256 / 256) % 256
  }

  /** The four bytes of a word put it back together. */
  lemma {:induction false} ByteOfSum(x: int)
    ensures ByteOf(x, 0) + 0x100 * ByteOf(x, 1) + 0x1_0000 * ByteOf(x, 2) + 0x100_0000 * ByteOf(x, 3) == x % TWO32
  {
    var u := x % TWO32;
    var q1, q2, q3 := u / 256, u / 256 / 256, u / 256 / 256 / 256;
    assert u == 256 * q1 + u % 256;
    assert q1 == 256 * q2 + q1 % 256;
    assert q2 == 256 * q3 + q2 % 256;
    assert q3 < 256;
  }

  /** The two bytes SetLE16 stores for a value converted to uint16_t. */
  function LE16(x: int): (s: seq<byte>)
    ensures |s| == 2
    ensures s[0] as int + 256 * s[1] as int == x % TWO16
  {
    LowHalf(x);
    [ByteOf(x, 0), ByteOf(x, 1)]
  }

  /** The low 16 bits of x are the two low bytes of its unsigned reduction. */
  lemma LowHalf(x: int)
    ensures ByteOf(x, 0) + 256 * ByteOf(x, 1) == x % TWO16
  {
    var u := x % TWO32;
    var q := x / TWO32;
    assert x == TWO32 * q + u;
    assert x % TWO16 == u % TWO16 by {
      assert x == TWO16 * (0x1_0000 * q) + u;
    }
    var a, r := u / TWO16, u % TWO16;
    assert u == TWO16 * a + r;
    assert u / 256 == 256 * a + r / 256;
    assert u % 256 == r % 256;
    assert r == 256 * (r / 256) + r % 256;
  }

  /** The four bytes SetLE32 stores for a value converted to uint32_t. */
  function LE32(x: int): (s: seq<byte>)
    ensures |s| == 4
    ensures s[0] as int + 0x100 * s[1] as int + 0x1_0000 * s[2] as int + 0x100_0000 * s[3] as int == x % TWO32
  {
    ByteOfSum(x);
    [ByteOf(x, 0), ByteOf(x, 1), ByteOf(x, 2), ByteOf(x, 3)]
  }

  /** The little-endian 16-bit word stored at `at`. */
  function GetLE16(s: seq<byte>, at: int): (w: int)
    requires 0 <= at && at + 2 <= |s|
    ensures 0 <= w < TWO16
  {
    s[at] as int + 256 * s[at + 1] as int
  }

  /** The little-endian 32-bit word stored at `at` (how the host reads a uint32_t or a float). */
  function GetLE32(s: seq<byte>, at: int): (w: word)
    requires 0 <= at && at + 4 <= |s|
  {
    s[at] as int + 0x100 * s[at + 1] as int + 0x1_0000 * s[at + 2] as int + 0x100_0000 * s[at + 3] as int
  }

  /** A run of zero bytes: what a file hole or a memset buffer reads as. */
  function Zeros(n: nat): (s: seq<byte>)
    ensures |s| == n && forall i :: 0 <= i < n ==> s[i] == 0
  {
    seq(n, _ => 0)
  }

  /** Four decoded bytes give back the word they were taken from. */
  lemma {:induction false} LE32RoundTrip(x: int)
    ensures GetLE32(LE32(x), 0) == x % TWO32
  {
  }

  /** Two decoded bytes give back the word they were taken from. */
  lemma {:induction false} LE16RoundTrip(x: int)
    ensures GetLE16(LE16(x), 0) == x % TWO16
  {
  }

  /** Encoding a 32-bit word that was read back from bytes reproduces those bytes. */
  lemma {:induction false} GetLE32Encodes(s: seq<byte>, at: int)
    requires 0 <= at && at + 4 <= |s|
    ensures LE32(GetLE32(s, at)) == s[at..at + 4]
  {
    var w := GetLE32(s, at);
    assert w % TWO32 == w;
    assert w % 256 == s[at];
    assert w / 256 == s[at + 1] as int + 256 * s[at + 2] as int + 0x1_0000 * s[at + 3] as int;
    assert w / 256 / 256 == s[at + 2] as int + 256 * s[at + 3] as int;
    assert w / 256 / 256 / 256 == s[at + 3] as int;
  }

  /** Four bytes that are those of x decode to x. */
  lemma {:induction false} GetLE32OfBytes(s: seq<byte>, at: int, x: int)
    requires 0 <= at && at + 4 <= |s|
    requires s[at] == ByteOf(x, 0) && s[at + 1] == ByteOf(x, 1)
    requires s[at + 2] == ByteOf(x, 2) && s[at + 3] == ByteOf(x, 3)
    ensures GetLE32(s, at) == x % TWO32
  {
    ByteOfSum(x);
  }

  /** Two sequences that agree on four bytes have equal four-byte slices there. */
  lemma {:induction false} SameFour(s: seq<byte>, t: seq<byte>, at: int)
    requires 0 <= at && at + 4 <= |s| && at + 4 <= |t|
    requires s[at] == t[at] && s[at + 1] == t[at + 1] && s[at + 2] == t[at + 2] && s[at + 3] == t[at + 3]
    ensures s[at..at + 4] == t[at..at + 4]
  {
    assert s[at..at + 4] == [s[at], s[at + 1], s[at + 2], s[at + 3]];
    assert t[at..at + 4] == [t[at], t[at + 1], t[at + 2], t[at + 3]];
  }

  /** The `count` 32-bit words stored little-endian from byte `at` on: what
      a buffer of samples holds after those bytes are read into it. */
  function Words(s: seq<byte>, at: nat, count: nat): (ws: seq<word>)
    requires at + 4 * count <= |s|
    ensures |ws| == count
    ensures forall i :: 0 <= i < count ==> ws[i] == GetLE32(s, at + 4 * i)
  {
    seq(count, i requires 0 <= i < count => GetLE32(s, at + 4 * i))
  }

  /** The bytes of a buffer of words, each stored little-endian: what
      writing that buffer puts in the file. */
  function WordBytes(ws: seq<word>): (s: seq<byte>)
    ensures |s| == 4 * |ws|
    ensures forall j :: 0 <= j < |s| ==> s[j] == ByteOf(ws[j / 4], j % 4)
  {
    seq(4 * |ws|, j requires 0 <= j < 4 * |ws| => ByteOf(ws[j / 4], j % 4))
  }

  /** Reading bytes as words and writing the words back gives the same bytes. */
  lemma {:induction false} WordBytesOfWords(s: seq<byte>, at: nat, count: nat)
    requires at + 4 * count <= |s|
    ensures WordBytes(Words(s, at, count)) == s[at..at + 4 * count]
  {
    var ws := Words(s, at, count);
    var r := WordBytes(ws);
    forall j | 0 <= j < 4 * count
      ensures r[j] == s[at + j]
    {
      var i, k := j / 4, j % 4;
      GetLE32Encodes(s, at + 4 * i);
      assert LE32(ws[i])[k] == s[at + 4 * i..at + 4 * i + 4][k];
    }
  }

  /** Word i of a buffer sits at bytes [4i, 4i + 4) once written. */
  lemma {:induction false} WordBytesSlot(ws: seq<word>, i: nat)
    requires i < |ws|
    ensures GetLE32(WordBytes(ws), 4 * i) == ws[i]
  {
    var s := WordBytes(ws);
    assert (4 * i) / 4 == i && (4 * i + 1) / 4 == i && (4 * i + 2) / 4 == i && (4 * i + 3) / 4 == i;
    assert (4 * i) % 4 == 0 && (4 * i + 1) % 4 == 1 && (4 * i + 2) % 4 == 2 && (4 * i + 3) % 4 == 3;
    assert s[4 * i] == ByteOf(ws[i], 0) && s[4 * i + 1] == ByteOf(ws[i], 1);
    assert s[4 * i + 2] == ByteOf(ws[i], 2) && s[4 * i + 3] == ByteOf(ws[i], 3);
    GetLE32OfBytes(s, 4 * i, ws[i]);
  }

  /** A written word equal to the word read at `at` puts back the same bytes. */
  lemma {:induction false} WordBytesKept(ws: seq<word>, i: nat, s: seq<byte>, at: nat)
    requires i < |ws| && at + 4 <= |s| && ws[i] == GetLE32(s, at)
    ensures 4 * i + 4 <= |WordBytes(ws)|
    ensures WordBytes(ws)[4 * i..4 * i + 4] == s[at..at + 4]
  {
    WordBytesSlot(ws, i);
    GetLE32Encodes(WordBytes(ws), 4 * i);
    GetLE32Encodes(s, at);
  }

  /** SetLE16: stores the low 16 bits of `x` little-endian at `at`, nothing else changes. */
  method SetLE16(buf: array<byte>, at: nat, x: int)
    requires at + 2 <= buf.Length
    modifies buf
    ensures buf[at] == ByteOf(x, 0) && buf[at + 1] == ByteOf(x, 1)
    ensures forall i :: 0 <= i < buf.Length && !(at <= i < at + 2) ==> buf[i] == old(buf[i])
  {
    buf[at] := ByteOf(x, 0);
    buf[at + 1] := ByteOf(x, 1);
  }

  /** SetLE32: stores the low 32 bits of `x` little-endian at `at`, nothing else changes. */
  method SetLE32(buf: array<byte>, at: nat, x: int)
    requires at + 4 <= buf.Length
    modifies buf
    ensures buf[at] == ByteOf(x, 0) && buf[at + 1] == ByteOf(x, 1)
    ensures buf[at + 2] == ByteOf(x, 2) && buf[at + 3] == ByteOf(x, 3)
    ensures forall i :: 0 <= i < buf.Length && !(at <= i < at + 4) ==> buf[i] == old(buf[i])
  {
    buf[at] := ByteOf(x, 0);
    buf[at + 1] := ByteOf(x, 1);
    buf[at + 2] := ByteOf(x, 2);
    buf[at + 3] := ByteOf(x, 3);
  }

  /** C's `/` on a non-negative divisor: the quotient truncated toward zero. */
  function DivTrunc(a: int, b: nat): int
    requires b > 0
  {
    if a >= 0 then a / b else -((-a) / b)
  }
}
