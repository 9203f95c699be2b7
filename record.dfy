/** What Record (multijack.cpp:930-962) does to the n interleaved frames it
    reads back from the file: in every frame the sample of track recA becomes
    input A's sample, then the sample of track recB becomes input B's, and
    every other sample is kept. A track number of -1 means the leg is not
    armed. Samples are 32-bit words, the bit patterns of the floats. */
module Recording {
  import opened Bytes

  /** The offset of frame f when every frame is w samples (or bytes) wide. */
  function Offset(w: nat, f: nat): nat
  {
    if f == 0 then 0 else Offset(w, f - 1) + w
  }

  /** Offset is the product the source computes. */
  lemma {:induction false} OffsetIsProduct(w: nat, f: nat)
    ensures Offset(w, f) == w * f
  {
    if f > 0 {
      OffsetIsProduct(w, f - 1);
      assert w * (f - 1) + w == w * f;
    }
  }

  /** Frame f of n frames ends inside the block. */
  lemma {:induction false} FrameInside(w: nat, f: nat, n: nat)
    requires f < n
    ensures Offset(w, f) + w <= Offset(w, n)
    decreases n
  {
    if f < n - 1 {
      FrameInside(w, f, n - 1);
    }
  }

  /** The buffer index of track c in frame f, `f * tracks + c`, which lies
      inside the first `frames` frames. */
  function SampleIndex(tracks: nat, frames: nat, f: nat, c: nat): (i: nat)
    requires f < frames && c < tracks
    ensures i == f * tracks + c && i < frames * tracks
  {
    OffsetIsProduct(tracks, f);
    OffsetIsProduct(tracks, frames);
    FrameInside(tracks, f, frames);
    f * tracks + c
  }

  /** The samples with slot c of the frame at `base` set to w (the assignment
      of an input sample to `g_pReadBuffer[nFrame * tracks + c]`); slot -1
      leaves them as they are. */
  function Put(s: seq<word>, base: nat, c: int, w: word): (r: seq<word>)
    requires -1 <= c && base + c < |s|
    ensures |r| == |s|
  {
    if c == -1 then s else s[base + c := w]
  }

  /** The legal arguments of a stamp: `n` frames of `tracks` samples, an input
      sample for every frame, armed tracks that exist. */
  predicate Shape(block: seq<word>, tracks: nat, n: nat, recA: int, recB: int, inA: seq<word>, inB: seq<word>)
  {
    |block| == Offset(tracks, n) && |inA| >= n && |inB| >= n
    && -1 <= recA < tracks && -1 <= recB < tracks
  }

  /** The samples after Record's frame loop has run over its first m frames. */
  function Stamped(block: seq<word>, tracks: nat, n: nat, m: nat, recA: int, recB: int,
                   inA: seq<word>, inB: seq<word>): (r: seq<word>)
    requires Shape(block, tracks, n, recA, recB, inA, inB) && m <= n
    ensures |r| == |block|
    decreases m
  {
    if m == 0 then block
    else
      var base := Offset(tracks, m - 1);
      FrameInside(tracks, m - 1, n);
      var s := Stamped(block, tracks, n, m - 1, recA, recB, inA, inB);
      Put(Put(s, base, recA, inA[m - 1]), base, recB, inB[m - 1])
  }

  /** The sample of track c in frame f once m frames are stamped: in a stamped
      frame, the input sample when the track is armed (B winning when both
      legs are armed on it); otherwise the block's own sample. */
  function StampedValue(block: seq<word>, tracks: nat, n: nat, m: nat, recA: int, recB: int,
                        inA: seq<word>, inB: seq<word>, f: nat, c: nat): word
    requires Shape(block, tracks, n, recA, recB, inA, inB)
    requires f < n && c < tracks
  {
    FrameInside(tracks, f, n);
    if f < m && c == recB then inB[f]
    else if f < m && c == recA then inA[f]
    else block[Offset(tracks, f) + c]
  }

  /** Every sample after m frames are stamped is its StampedValue. */
  lemma {:induction false} StampedSlot(block: seq<word>, tracks: nat, n: nat, m: nat, recA: int, recB: int,
                                       inA: seq<word>, inB: seq<word>, f: nat, c: nat)
    requires Shape(block, tracks, n, recA, recB, inA, inB) && m <= n
    requires f < n && c < tracks
    ensures Offset(tracks, f) + c < |block|
    ensures Stamped(block, tracks, n, m, recA, recB, inA, inB)[Offset(tracks, f) + c]
      == StampedValue(block, tracks, n, m, recA, recB, inA, inB, f, c)
    decreases m
  {
    FrameInside(tracks, f, n);
    if m > 0 {
      StampedSlot(block, tracks, n, m - 1, recA, recB, inA, inB, f, c);
      StampedStep(block, tracks, n, m, recA, recB, inA, inB, f, c);
      StampedValueStep(block, tracks, n, m, recA, recB, inA, inB, f, c);
    }
  }

  /** Stamping frame m - 1 sets the armed slots of that frame and keeps
      every other slot. */
  lemma StampedStep(block: seq<word>, tracks: nat, n: nat, m: nat, recA: int, recB: int,
                    inA: seq<word>, inB: seq<word>, f: nat, c: nat)
    requires Shape(block, tracks, n, recA, recB, inA, inB) && 0 < m <= n
    requires f < n && c < tracks
    ensures Offset(tracks, f) + c < |block|
    ensures var k := Offset(tracks, f) + c;
      var prev := Stamped(block, tracks, n, m - 1, recA, recB, inA, inB);
      Stamped(block, tracks, n, m, recA, recB, inA, inB)[k]
      == if f == m - 1 && c == recB then inB[f]
         else if f == m - 1 && c == recA then inA[f]
         else prev[k]
  {
    FrameInside(tracks, f, n);
    FrameInside(tracks, m - 1, n);
    var base := Offset(tracks, m - 1);
    var prev := Stamped(block, tracks, n, m - 1, recA, recB, inA, inB);
    assert Stamped(block, tracks, n, m, recA, recB, inA, inB)
      == Put(Put(prev, base, recA, inA[m - 1]), base, recB, inB[m - 1]);
    if f == m - 1 {
      PutSameFrame(prev, base, tracks, recA, recB, inA[m - 1], inB[m - 1], c);
    } else {
      FramesApart(tracks, f, m - 1, c);
      PutElsewhere(prev, base, tracks, recA, recB, inA[m - 1], inB[m - 1], Offset(tracks, f) + c);
    }
  }

  /** StampedValue after m frames from its value after m - 1. */
  lemma StampedValueStep(block: seq<word>, tracks: nat, n: nat, m: nat, recA: int, recB: int,
                         inA: seq<word>, inB: seq<word>, f: nat, c: nat)
    requires Shape(block, tracks, n, recA, recB, inA, inB) && 0 < m <= n
    requires f < n && c < tracks
    ensures StampedValue(block, tracks, n, m, recA, recB, inA, inB, f, c)
      == if f == m - 1 && c == recB then inB[f]
         else if f == m - 1 && c == recA then inA[f]
         else StampedValue(block, tracks, n, m - 1, recA, recB, inA, inB, f, c)
  {
  }

  /** A slot of one frame lies outside every other frame. */
  lemma FramesApart(w: nat, f: nat, g: nat, c: nat)
    requires f != g && c < w
    ensures Offset(w, f) + c < Offset(w, g) || Offset(w, g) + w <= Offset(w, f) + c
  {
    if f < g {
      FrameInside(w, f, g);
    } else {
      FrameInside(w, g, f);
    }
  }

  /** Stamping a frame leaves a slot outside it unchanged. */
  lemma PutElsewhere(s: seq<word>, base: nat, w: nat, recA: int, recB: int, a: word, b: word, k: nat)
    requires -1 <= recA < w && -1 <= recB < w && base + w <= |s| && k < |s|
    requires k < base || base + w <= k
    ensures Put(Put(s, base, recA, a), base, recB, b)[k] == s[k]
  {
  }

  /** Stamping a frame sets slot c of it as StampedValue says. */
  lemma PutSameFrame(s: seq<word>, base: nat, w: nat, recA: int, recB: int, a: word, b: word, c: nat)
    requires -1 <= recA < w && -1 <= recB < w && c < w && base + w <= |s|
    ensures var r := Put(Put(s, base, recA, a), base, recB, b)[base + c];
      r == if c == recB then b else if c == recA then a else s[base + c]
  {
  }

  /** The stamp slot by slot, as the source indexes the buffer: the sample at
      f * tracks + c is input B's for the B track, input A's for the A track
      (unless B is armed on it too), and unchanged for every other track. */
  lemma {:induction false} StampedSample(block: seq<word>, tracks: nat, n: nat, recA: int, recB: int,
                                         inA: seq<word>, inB: seq<word>, f: nat, c: nat)
    requires Shape(block, tracks, n, recA, recB, inA, inB)
    requires f < n && c < tracks
    ensures f * tracks + c < |block|
    ensures var r := Stamped(block, tracks, n, n, recA, recB, inA, inB);
      var i := f * tracks + c;
      (c == recB ==> r[i] == inB[f])
      && (c == recA && c != recB ==> r[i] == inA[f])
      && (c != recA && c != recB ==> r[i] == block[i])
  {
    OffsetIsProduct(tracks, f);
    assert f * tracks == tracks * f;
    StampedSlot(block, tracks, n, n, recA, recB, inA, inB, f, c);
  }

  /** With no leg armed the stamp changes nothing. */
  lemma {:induction false} StampedUnarmed(block: seq<word>, tracks: nat, n: nat, m: nat, inA: seq<word>, inB: seq<word>)
    requires Shape(block, tracks, n, -1, -1, inA, inB) && m <= n
    ensures Stamped(block, tracks, n, m, -1, -1, inA, inB) == block
    decreases m
  {
    if m > 0 {
      StampedUnarmed(block, tracks, n, m - 1, inA, inB);
    }
  }

  /** The file bytes of a recorded block: the block at `at` read as samples,
      stamped, and written back as bytes. */
  function RecordedBytes(s: seq<byte>, at: nat, tracks: nat, n: nat, recA: int, recB: int,
                         inA: seq<word>, inB: seq<word>): (r: seq<byte>)
    requires at + 4 * Offset(tracks, n) <= |s|
    requires |inA| >= n && |inB| >= n && -1 <= recA < tracks && -1 <= recB < tracks
    ensures |r| == 4 * Offset(tracks, n)
  {
    WordBytes(Stamped(Words(s, at, Offset(tracks, n)), tracks, n, n, recA, recB, inA, inB))
  }

  /** In the file, every armed slot of the rewritten block decodes to its
      input sample and every other slot keeps its four bytes. */
  lemma {:induction false} RecordedSlot(s: seq<byte>, at: nat, tracks: nat, n: nat, recA: int, recB: int,
                                        inA: seq<word>, inB: seq<word>, f: nat, c: nat)
    requires at + 4 * Offset(tracks, n) <= |s|
    requires |inA| >= n && |inB| >= n && -1 <= recA < tracks && -1 <= recB < tracks
    requires f < n && c < tracks
    ensures 4 * (f * tracks + c) + 4 <= 4 * Offset(tracks, n)
    ensures var r := RecordedBytes(s, at, tracks, n, recA, recB, inA, inB);
      var j := 4 * (f * tracks + c);
      (c == recB ==> GetLE32(r, j) == inB[f])
      && (c == recA && c != recB ==> GetLE32(r, j) == inA[f])
      && (c != recA && c != recB ==> r[j..j + 4] == s[at + j..at + j + 4])
  {
    var block := Words(s, at, Offset(tracks, n));
    var stamped := Stamped(block, tracks, n, n, recA, recB, inA, inB);
    var i := SampleIndex(tracks, n, f, c);
    StampedSample(block, tracks, n, recA, recB, inA, inB, f, c);
    var j := 4 * (f * tracks + c);
    BlockSlot(s, at, block, stamped, i, j);
    var r := RecordedBytes(s, at, tracks, n, recA, recB, inA, inB);
    assert r == WordBytes(stamped);
    if c == recB {
      assert GetLE32(r, j) == stamped[i] == inB[f];
    } else if c == recA {
      assert GetLE32(r, j) == stamped[i] == inA[f];
    } else {
      assert stamped[i] == block[i];
    }
  }

  /** Slot i of a block of samples read at `at`, changed and written back:
      it decodes to the sample written, and keeps its four bytes when the
      sample is the one read. */
  lemma BlockSlot(s: seq<byte>, at: nat, block: seq<word>, stamped: seq<word>, i: nat, j: int)
    requires at + 4 * |block| <= |s| && block == Words(s, at, |block|)
    requires |stamped| == |block| && i < |block| && j == 4 * i
    ensures 0 <= j && j + 4 <= 4 * |stamped|
    ensures GetLE32(WordBytes(stamped), j) == stamped[i]
    ensures stamped[i] == block[i] ==>
      WordBytes(stamped)[j..j + 4] == s[at + j..at + j + 4]
  {
    WordBytesSlot(stamped, i);
    if stamped[i] == block[i] {
      WordBytesKept(stamped, i, s, at + 4 * i);
    }
  }

  /** With no leg armed the rewritten block is the block that was read. */
  lemma {:induction false} RecordedUnarmed(s: seq<byte>, at: nat, tracks: nat, n: nat, inA: seq<word>, inB: seq<word>)
    requires at + 4 * Offset(tracks, n) <= |s| && |inA| >= n && |inB| >= n
    ensures RecordedBytes(s, at, tracks, n, -1, -1, inA, inB) == s[at..at + 4 * Offset(tracks, n)]
  {
    StampedUnarmed(Words(s, at, Offset(tracks, n)), tracks, n, n, inA, inB);
    WordBytesOfWords(s, at, Offset(tracks, n));
  }
}
