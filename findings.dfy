/** Three ways OpenFile (multijack.cpp:540-669) goes wrong on a well-formed
    RIFF file, each shown on the code as written and on a concrete file, next
    to the corrected behaviour the rest of the model uses (Multijack.Opening
    and Multijack.PutImportEarly). */
module Findings {
  import opened Bytes
  import opened Files
  import opened Wave
  import opened Multijack

  /** The four bytes of a JUNK chunk identifier. */
  const JUNK: seq<byte> := ['J' as int, 'U' as int, 'N' as int, 'K' as int]

  /** A RIFF/WAVE file with a 16-byte JUNK chunk and then an empty data
      chunk: no fmt chunk precedes the data, whose payload starts at byte 44,
      so nothing is imported. */
  const NoFormatFile: seq<byte> :=
    RIFF + [36, 0, 0, 0] + WAVE
    + JUNK + [16, 0, 0, 0] + [0, 0, 0, 0, 0, 0, 0, 0, 0, 0, 0, 0, 0, 0, 0, 0]
    + DATA + [0, 0, 0, 0]

  /** As written: the scan reaches the data branch of the chunk loop with no
      fmt chunk read, so no track is added and the frame size is the one
      still in force. On the first open that is 0, and line 660 divides the
      data length by it. On a later open (CloseFile does not reset
      g_nFrameSize) it is the previous file's frame size, and the source
      accepts the file as a project of zero tracks. */
  lemma DataBeforeFormat(rate: word, frameSize: int)
    ensures Signed(NoFormatFile)
    ensures var f := Format(0, rate, frameSize, false);
      ScanChunks(NoFormatFile, 12, f) == DataAt(HEADER_SIZE, f)
  {
    var b := NoFormatFile;
    var f := Format(0, rate, frameSize, false);
    assert b[..4] == RIFF && b[8..12] == WAVE && b[12..16] == JUNK && b[16] == 16 && b[36..40] == DATA;
    ScanStep(b, 12, f);
    ScanStep(b, 36, f);
  }

  /** Corrected: the open refuses the file instead of dividing by zero. */
  lemma NoFormatFileRefused(fmt0: Format, jackRate: word)
    ensures !Opening(NoFormatFile, fmt0, jackRate).ok
  {
    var b := NoFormatFile;
    assert b[..4] == RIFF && b[8..12] == WAVE && b[12..16] == JUNK && b[16] == 16 && b[36..40] == DATA;
    ScanStep(b, 12, fmt0.(fmtSeen := false));
    ScanStep(b, 36, fmt0.(fmtSeen := false));
  }

  /** A file whose fmt chunk gives its size as 8, with an 8-byte body
      (bytes 20..27) and the data chunk header right after it at byte 28.
      The source reads 16 bytes of body, taking in the data chunk header,
      then seeks back 8 bytes (nSize - 16) to byte 28, finds the data chunk
      there, and so the payload starts at byte 36. One channel at 44100 Hz;
      the payload is one silent frame. */
  const EarlyPayload: seq<byte> :=
    RIFF + [32, 0, 0, 0] + WAVE
    + FMT + [8, 0, 0, 0] + [3, 0, 1, 0, 0x44, 0xAC, 0, 0]
    + DATA + [4, 0, 0, 0]
    + [0, 0, 0, 0]

  /** The scan finds the payload of EarlyPayload at byte 36, before the 44
      bytes of the minimal header, with one track at 44100 Hz. */
  lemma EarlyPayloadScan(f: Format)
    requires f.trackCount == 0
    ensures Signed(EarlyPayload)
    ensures ScanChunks(EarlyPayload, 12, f) == DataAt(36, Format(1, 44100, 4, true))
  {
    var b := EarlyPayload;
    assert b[..4] == RIFF && b[8..12] == WAVE;
    assert b[12..16] == FMT && b[16] == 8 && b[28..32] == DATA;
    assert b[20..36] == [3, 0, 1, 0, 0x44, 0xAC, 0, 0] + DATA + [4, 0, 0, 0];
    ScanStep(b, 12, f);
    ScanStep(b, 28, ReadFormat(b[20..36], f));
  }

  /** The import loop (multijack.cpp:629-649) as written: the file and its
      read and write offsets. */
  datatype Copy = Copy(bytes: seq<byte>, offRead: nat, offWrite: nat)

  /** The loop goes on while pread returns bytes at the read offset. */
  predicate Continues(c: Copy)
  {
    Available(|c.bytes|, c.offRead, 512) > 0
  }

  /** One pass: up to 512 bytes read at offRead are written at offWrite and
      both offsets advance by the count read. */
  function CopyStep(c: Copy): (d: Copy)
    ensures d.offWrite - d.offRead == c.offWrite - c.offRead
  {
    var n := Available(|c.bytes|, c.offRead, 512);
    if n == 0 then c
    else Copy(Overwrite(c.bytes, c.offWrite, c.bytes[c.offRead..c.offRead + n]), c.offRead + n, c.offWrite + n)
  }

  /** The loop after k passes. */
  function CopyRun(c: Copy, k: nat): Copy
  {
    if k == 0 then c else CopyStep(CopyRun(c, k - 1))
  }

  /** While the write offset runs ahead of the read offset and not beyond
      the end of the file, every pass reads bytes, keeps the gap between the
      offsets and leaves the file extending past the write offset. */
  lemma {:induction false} CopyStaysAhead(c: Copy, k: nat)
    requires c.offRead < c.offWrite <= |c.bytes|
    ensures var d := CopyRun(c, k);
      Continues(d) && d.offWrite - d.offRead == c.offWrite - c.offRead && d.offWrite <= |d.bytes|
  {
    RunAhead(c, k);
    StepAhead(CopyRun(c, k));
  }

  /** The write offset stays ahead of the read offset, by the same gap, and
      within the file. */
  predicate Ahead(d: Copy, gap: int)
  {
    d.offRead < d.offWrite <= |d.bytes| && d.offWrite - d.offRead == gap
  }

  /** Every pass keeps the write offset ahead. */
  lemma {:induction false} RunAhead(c: Copy, k: nat)
    requires c.offRead < c.offWrite <= |c.bytes|
    ensures Ahead(CopyRun(c, k), c.offWrite - c.offRead)
  {
    if k > 0 {
      RunAhead(c, k - 1);
      StepAhead(CopyRun(c, k - 1));
    }
  }

  /** A pass that starts with the write offset ahead of the read offset and
      within the file reads bytes, and leaves the write offset ahead by the
      same gap. */
  lemma StepAhead(d: Copy)
    requires d.offRead < d.offWrite <= |d.bytes|
    ensures Continues(d)
    ensures Ahead(CopyStep(d), d.offWrite - d.offRead)
  {
    var n := Available(|d.bytes|, d.offRead, 512);
    var data := d.bytes[d.offRead..d.offRead + n];
    assert |Overwrite(d.bytes, d.offWrite, data)| >= d.offWrite + n;
  }

  /** As written, for a payload that starts before byte 44: once the header
      is written, the write offset runs ahead of the read offset by
      44 - start and the file always extends past the write offset, so every
      pread returns bytes: the loop ends only when storage runs out (pwrite
      failing, or the process killed at the file-size limit), and by then the
      payload has been overwritten by copies of the bytes before it. (With an
      empty payload the first pass also divides the progress by a wave size
      of 0.) */
  lemma ImportLoopNeverEnds(b: seq<byte>, start: nat, channels: int, rate: int, k: nat)
    requires start < HEADER_SIZE && start <= |b|
    ensures var c := CopyRun(Copy(Overwrite(b, 0, HeaderBytes(|b| - start, channels, rate)), start, HEADER_SIZE), k);
      Continues(c) && c.offWrite == c.offRead + (HEADER_SIZE - start)
  {
    CopyStaysAhead(Copy(Overwrite(b, 0, HeaderBytes(|b| - start, channels, rate)), start, HEADER_SIZE), k);
  }

  /** EarlyPayload as written: its import never ends. */
  lemma EarlyPayloadNeverImports(k: nat)
    ensures var c := CopyRun(Copy(Overwrite(EarlyPayload, 0, HeaderBytes(4, 1, 44100)), 36, HEADER_SIZE), k);
      Continues(c)
  {
    ImportLoopNeverEnds(EarlyPayload, 36, 1, 44100, k);
  }

  /** Corrected: EarlyPayload opens with its one frame moved behind a fresh
      44-byte header, and opening the result again changes nothing. */
  lemma EarlyPayloadImported(fmt0: Format, jackRate: word)
    requires fmt0.trackCount == 0
    ensures var o := Opening(EarlyPayload, fmt0, jackRate);
      o.ok && o.bytes == Imported(EarlyPayload, 36, 1, 44100) && |o.bytes| == 48
      && o.bytes[HEADER_SIZE..] == EarlyPayload[36..] && o.fmt == Format(1, 44100, 4, true)
      && Opening(o.bytes, fmt0, jackRate) == o
  {
    EarlyPayloadScan(fmt0.(rate := fmt0.rate, fmtSeen := false));
    var o := Opening(EarlyPayload, fmt0, jackRate);
    assert o.bytes == Imported(EarlyPayload, 36, 1, 44100);
    OpeningIsStable(EarlyPayload, fmt0, jackRate, fmt0);
  }

  /** The header WriteHeader would write for an empty wave of 0 channels at
      44100 Hz: a fmt chunk declaring no channels, then an empty data chunk. */
  const ZeroChannelFile: seq<byte> := HeaderBytes(0, 0, DEFAULT_SAMPLERATE)

  /** As written: the fmt chunk adds no track, so g_nFrameSize becomes 0 at
      multijack.cpp:604 and the scan reaches the data branch, where line 660
      divides by it. CloseFile has cleared the tracks, so this happens on
      every open, first or later. */
  lemma ZeroChannelsReachData(f: Format)
    requires f.trackCount == 0
    ensures Signed(ZeroChannelFile)
    ensures var r := ScanChunks(ZeroChannelFile, 12, f);
      r == DataAt(HEADER_SIZE, r.fmt) && r.fmt.fmtSeen && r.fmt.trackCount == 0 && r.fmt.frameSize == 0
  {
    HeaderFields(0, 0, DEFAULT_SAMPLERATE);
    ScanMinimalHeader(ZeroChannelFile, 0, 0, DEFAULT_SAMPLERATE, f);
  }

  /** Corrected: the open refuses a file whose fmt chunks declare no
      channels instead of dividing by zero. */
  lemma ZeroChannelFileRefused(fmt0: Format, jackRate: word)
    requires fmt0.trackCount == 0
    ensures !Opening(ZeroChannelFile, fmt0, jackRate).ok
  {
    ZeroChannelsReachData(fmt0.(fmtSeen := false));
  }
}
