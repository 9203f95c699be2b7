/** The value of a jack_default_audio_sample_t (an IEEE 754 binary32 float)
    stored little-endian in the container payload or in the read buffer. */
module Samples {
  import opened Bytes

  /** 2 to the k, by squaring so that constant exponents unfold in few steps. */
  function Pow2(k: nat): (p: nat)
    ensures p >= 1
  {
    if k == 0 then 1
    else
      var h := Pow2(k / 2);
      if k % 2 == 0 then h * h else 2 * h * h
  }

  /** The real number a binary32 bit pattern denotes: sign bit 31, biased
      exponent bits 23..30, fraction bits 0..22. Infinities and NaNs (exponent
      255) have no real value and read as 0.0. */
  function Float32Value(w: word): real
  {
    var negative := w >= 0x8000_0000;
    var e := (w / 0x80_0000) % 256;
    var m := w % 0x80_0000;
    var magnitude :=
      if e == 255 then 0.0
      else if e == 0 then (m as real) / (Pow2(149) as real)
      else if e >= 150 then ((0x80_0000 + m) * Pow2(e - 150)) as real
      else ((0x80_0000 + m) as real) / (Pow2(150 - e) as real);
    if negative then -magnitude else magnitude
  }

  /** The sample stored at byte offset `at`. */
  function SampleAt(s: seq<byte>, at: int): real
    requires 0 <= at && at + 4 <= |s|
  {
    Float32Value(GetLE32(s, at))
  }

  /** The all-zero pattern (what silence and file holes hold) is the sample 0.0. */
  lemma {:induction false} ZeroBytesAreSilence(s: seq<byte>, at: int)
    requires 0 <= at && at + 4 <= |s|
    requires s[at] == 0 && s[at + 1] == 0 && s[at + 2] == 0 && s[at + 3] == 0
    ensures SampleAt(s, at) == 0.0
  {
    var w := GetLE32(s, at);
    assert w == 0;
    assert (w / 0x80_0000) % 256 == 0 && w % 0x80_0000 == 0;
    var p := Pow2(149) as real;
    assert 0.0 / p == 0.0;
  }

  /** 0x3F80_0000 is 1.0: the exponent bias and the implicit leading bit are right. */
  lemma {:induction false} Float32One()
    ensures Float32Value(0x3F80_0000) == 1.0
  {
    var w: word := 0x3F80_0000;
    assert (w / 0x80_0000) % 256 == 127;
    assert w % 0x80_0000 == 0;
    var p := Pow2(23);
    assert p == 0x80_0000 by {
      assert Pow2(1) == 2;
      assert Pow2(2) == 4;
      assert Pow2(5) == 32;
      assert Pow2(11) == 2048;
    }
    assert (0x80_0000 as real) / (p as real) == 1.0;
  }
}
