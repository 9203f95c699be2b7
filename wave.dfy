/** The on-disk container: the minimal 44-byte RIFF WAVE header written by
    WriteHeader, the chunk scan of OpenFile, the silent file OpenFile creates
    and the layout its import step produces. */
module Wave {
  import opened Bytes

  const DEFAULT_SAMPLERATE: int := 44100
  /** Bytes per sample: sizeof(jack_default_audio_sample_t), a 32-bit float. */
  const SAMPLE_SIZE: int := 4
  const MAX_TRACKS: int := 16
  /** Size of the minimal header: RIFF descriptor (12), fmt chunk (8 + 16), data chunk header (8). */
  const HEADER_SIZE: int := 44
  /** WAVE_FORMAT_IEEE_FLOAT */
  const FORMAT_IEEE_FLOAT: int := 3

  const RIFF: seq<byte> := ['R' as int, 'I' as int, 'F' as int, 'F' as int]
  const WAVE: seq<byte> := ['W' as int, 'A' as int, 'V' as int, 'E' as int]
  const FMT: seq<byte> := ['f' as int, 'm' as int, 't' as int, ' ' as int]
  const DATA: seq<byte> := ['d' as int, 'a' as int, 't' as int, 'a' as int]

  /** The 44 bytes WriteHeader(waveSize, channels) puts at the start of the
      file when the sample rate is `rate`. */
  function HeaderBytes(waveSize: int, channels: int, rate: int): (h: seq<byte>)
    ensures |h| == HEADER_SIZE
  {
    RIFF + LE32(waveSize + 36) + WAVE
      + FMT + LE32(16) + LE16(FORMAT_IEEE_FLOAT) + LE16(channels) + LE32(rate)
      + LE32(rate * channels * SAMPLE_SIZE) + LE16(channels * SAMPLE_SIZE) + LE16(8 * SAMPLE_SIZE)
      + DATA + LE32(waveSize)
  }

  /** The header read back field by field: the four tags in place, and every
      number decoding to its argument reduced to the width of its field
      (the RIFF size is the payload size plus 36, the byte rate
      rate x channels x 4, the block alignment channels x 4, 32 bits per
      sample). */
  lemma HeaderFields(waveSize: int, channels: int, rate: int)
    ensures var h := HeaderBytes(waveSize, channels, rate);
      h[0..4] == RIFF && h[8..12] == WAVE && h[12..16] == FMT && h[36..40] == DATA
      && GetLE32(h, 4) == (waveSize + 36) % TWO32
      && GetLE32(h, 16) == 16
      && GetLE16(h, 20) == FORMAT_IEEE_FLOAT
      && GetLE16(h, 22) == channels % TWO16
      && GetLE32(h, 24) == rate % TWO32
      && GetLE32(h, 28) == (rate * channels * SAMPLE_SIZE) % TWO32
      && GetLE16(h, 32) == (channels * SAMPLE_SIZE) % TWO16
      && GetLE16(h, 34) == 8 * SAMPLE_SIZE
      && GetLE32(h, 40) == waveSize % TWO32
  {
    HeaderTagsAndSizes(waveSize, channels, rate);
    HeaderFormatBody(waveSize, channels, rate);
  }

  lemma {:induction false} HeaderTagsAndSizes(waveSize: int, channels: int, rate: int)
    ensures var h := HeaderBytes(waveSize, channels, rate);
      h[0..4] == RIFF && h[8..12] == WAVE && h[12..16] == FMT && h[36..40] == DATA
      && GetLE32(h, 4) == (waveSize + 36) % TWO32
      && GetLE32(h, 16) == 16
      && GetLE32(h, 40) == waveSize % TWO32
  {
    HeaderTags(waveSize, channels, rate);
    HeaderSizes(waveSize, channels, rate);
  }

  lemma HeaderTags(waveSize: int, channels: int, rate: int)
    ensures var h := HeaderBytes(waveSize, channels, rate);
      h[0..4] == RIFF && h[8..12] == WAVE && h[12..16] == FMT && h[36..40] == DATA
  {
  }

  lemma {:induction false} HeaderSizes(waveSize: int, channels: int, rate: int)
    ensures var h := HeaderBytes(waveSize, channels, rate);
      GetLE32(h, 4) == (waveSize + 36) % TWO32
      && GetLE32(h, 16) == 16
      && GetLE32(h, 40) == waveSize % TWO32
  {
    var h := HeaderBytes(waveSize, channels, rate);
    LE32At(h, 4, waveSize + 36);
    LE32At(h, 16, 16);
    LE32At(h, 40, waveSize);
  }

  lemma {:induction false} HeaderFormatBody(waveSize: int, channels: int, rate: int)
    ensures var h := HeaderBytes(waveSize, channels, rate);
      GetLE16(h, 20) == FORMAT_IEEE_FLOAT
      && GetLE16(h, 22) == channels % TWO16
      && GetLE32(h, 24) == rate % TWO32
      && GetLE32(h, 28) == (rate * channels * SAMPLE_SIZE) % TWO32
      && GetLE16(h, 32) == (channels * SAMPLE_SIZE) % TWO16
      && GetLE16(h, 34) == 8 * SAMPLE_SIZE
  {
    HeaderChannels(waveSize, channels, rate);
    HeaderRates(waveSize, channels, rate);
  }

  lemma {:induction false} HeaderChannels(waveSize: int, channels: int, rate: int)
    ensures var h := HeaderBytes(waveSize, channels, rate);
      GetLE16(h, 20) == FORMAT_IEEE_FLOAT
      && GetLE16(h, 22) == channels % TWO16
      && GetLE16(h, 32) == (channels * SAMPLE_SIZE) % TWO16
      && GetLE16(h, 34) == 8 * SAMPLE_SIZE
  {
    var h := HeaderBytes(waveSize, channels, rate);
    LE16At(h, 20, FORMAT_IEEE_FLOAT);
    LE16At(h, 22, channels);
    LE16At(h, 32, channels * SAMPLE_SIZE);
    LE16At(h, 34, 8 * SAMPLE_SIZE);
  }

  lemma {:induction false} HeaderRates(waveSize: int, channels: int, rate: int)
    ensures var h := HeaderBytes(waveSize, channels, rate);
      GetLE32(h, 24) == rate % TWO32
      && GetLE32(h, 28) == (rate * channels * SAMPLE_SIZE) % TWO32
  {
    var h := HeaderBytes(waveSize, channels, rate);
    LE32At(h, 24, rate);
    LE32At(h, 28, rate * channels * SAMPLE_SIZE);
  }

  /** Bytes [at, at + 4) holding LE32(x) decode to x. */
  lemma {:induction false} LE32At(h: seq<byte>, at: nat, x: int)
    requires at + 4 <= |h| && h[at..at + 4] == LE32(x)
    ensures GetLE32(h, at) == x % TWO32
  {
    assert h[at] == LE32(x)[0] && h[at + 1] == LE32(x)[1];
    assert h[at + 2] == LE32(x)[2] && h[at + 3] == LE32(x)[3];
  }

  /** Bytes [at, at + 2) holding LE16(x) decode to x. */
  lemma {:induction false} LE16At(h: seq<byte>, at: nat, x: int)
    requires at + 2 <= |h| && h[at..at + 2] == LE16(x)
    ensures GetLE16(h, at) == x % TWO16
  {
    assert h[at] == LE16(x)[0] && h[at + 1] == LE16(x)[1];
  }

  /** The chunk size as multijack.cpp:582 reads it: only byte 4 of the chunk
      header, as a signed char, converted to uint32_t (so 0x80..0xFF become
      0xFFFFFF80..0xFFFFFFFF). */
  function ChunkSizeAsRead(b: byte): (n: word)
    ensures b < 128 ==> n == b
    ensures b >= 128 ==> n >= TWO32 - 128
  {
    if b < 128 then b else TWO32 - 256 + b
  }

  /** What the scan has learnt so far: the number of tracks, g_nSamplerate,
      g_nFrameSize, and whether a fmt chunk has been read. */
  datatype Format = Format(trackCount: nat, rate: word, frameSize: int, fmtSeen: bool)

  /** The effect of a 16-byte fmt chunk body: one new track per channel, the
      sample rate (0 meaning the default), and the frame size of all tracks. */
  function ReadFormat(body: seq<byte>, f: Format): (g: Format)
    requires |body| == 16
    ensures g.fmtSeen && g.trackCount == f.trackCount + GetLE16(body, 2)
    ensures g.frameSize == g.trackCount * SAMPLE_SIZE
    ensures g.rate != 0 && (GetLE32(body, 4) != 0 ==> g.rate == GetLE32(body, 4))
  {
    var count := f.trackCount + GetLE16(body, 2);
    Format(count, RateOrDefault(GetLE32(body, 4)), count * SAMPLE_SIZE, true)
  }

  /** A sample rate of 0 stands for DEFAULT_SAMPLERATE. */
  function RateOrDefault(rate: word): (r: word)
    ensures r != 0
    ensures rate != 0 ==> r == rate
  {
    if rate == 0 then DEFAULT_SAMPLERATE else rate
  }

  /** The file starts with a RIFF descriptor of form WAVE. */
  predicate Signed(b: seq<byte>)
  {
    |b| >= 12 && b[..4] == RIFF && b[8..12] == WAVE
  }

  /** Outcome of the chunk loop: a data chunk whose payload starts at `start`,
      or a failure with the descriptor offset at which reading stopped. */
  datatype ScanResult = DataAt(start: nat, fmt: Format) | NoData(fmt: Format, pos: nat)

  /** The chunk loop of OpenFile (multijack.cpp:578-665) from offset `pos`:
      a fmt chunk updates the format, a data chunk ends the scan, any other
      chunk is skipped by its size as read; the loop ends without data when an
      8-byte chunk header (or a 16-byte fmt body) cannot be read whole. */
  function ScanChunks(b: seq<byte>, pos: nat, f: Format): (r: ScanResult)
    ensures r.DataAt? ==> pos + 8 <= r.start <= |b|
    decreases if pos <= |b| then |b| - pos else 0
  {
    if pos + 8 > |b| then NoData(f, if pos < |b| then |b| else pos)
    else
      var next := pos + 8 + ChunkSizeAsRead(b[pos + 4]);
      if b[pos..pos + 4] == FMT then
        if pos + 24 > |b| then NoData(f, |b|)
        else ScanChunks(b, next, ReadFormat(b[pos + 8..pos + 24], f))
      else if b[pos..pos + 4] == DATA then DataAt(pos + 8, f)
      else ScanChunks(b, next, f)
  }

  /** One step of the scan at a chunk header that lies inside the file. */
  lemma ScanStep(b: seq<byte>, pos: nat, f: Format)
    requires pos + 8 <= |b|
    ensures var next := pos + 8 + ChunkSizeAsRead(b[pos + 4]);
      ScanChunks(b, pos, f) ==
        if b[pos..pos + 4] == FMT then
          if pos + 24 > |b| then NoData(f, |b|) else ScanChunks(b, next, ReadFormat(b[pos + 8..pos + 24], f))
        else if b[pos..pos + 4] == DATA then DataAt(pos + 8, f)
        else ScanChunks(b, next, f)
  {
  }

  /** A found payload follows an 8-byte data chunk header that lies inside the file. */
  lemma {:induction false} ScanFindsDataHeader(b: seq<byte>, pos: nat, f: Format)
    requires ScanChunks(b, pos, f).DataAt?
    ensures var s := ScanChunks(b, pos, f).start;
      pos + 8 <= s <= |b| && b[s - 8..s - 4] == DATA
    decreases if pos <= |b| then |b| - pos else 0
  {
    var next := pos + 8 + ChunkSizeAsRead(b[pos + 4]);
    if b[pos..pos + 4] == FMT {
      ScanFindsDataHeader(b, next, ReadFormat(b[pos + 8..pos + 24], f));
    } else if b[pos..pos + 4] != DATA {
      ScanFindsDataHeader(b, next, f);
    }
  }

  /** Format state that agrees with itself: once a fmt chunk has been read the
      frame size is that of all tracks and the rate is not zero. */
  predicate Consistent(f: Format)
  {
    f.fmtSeen ==> f.frameSize == f.trackCount * SAMPLE_SIZE && f.rate != 0
  }

  /** The scan never removes tracks, keeps a consistent format consistent, and
      a format it reports as unseen is the one it started with. */
  lemma {:induction false} ScanFormatInvariant(b: seq<byte>, pos: nat, f: Format)
    requires Consistent(f)
    ensures var g := ScanChunks(b, pos, f).fmt;
      Consistent(g) && g.trackCount >= f.trackCount && (!g.fmtSeen ==> g == f)
    decreases if pos <= |b| then |b| - pos else 0
  {
    if pos + 8 <= |b| {
      var next := pos + 8 + ChunkSizeAsRead(b[pos + 4]);
      ScanStep(b, pos, f);
      if b[pos..pos + 4] == FMT {
        if pos + 24 <= |b| {
          ScanFormatInvariant(b, next, ReadFormat(b[pos + 8..pos + 24], f));
        }
      } else if b[pos..pos + 4] != DATA {
        ScanFormatInvariant(b, next, f);
      }
    }
  }

  /** A chunk other than fmt and data whose size byte is 0x80 or more makes the
      scan seek about 4 GiB ahead, so in any smaller file it finds no data. */
  lemma {:induction false} LargeChunkSizeEndsScan(b: seq<byte>, pos: nat, f: Format)
    requires pos + 8 <= |b| < TWO32 - 256
    requires b[pos..pos + 4] != FMT && b[pos..pos + 4] != DATA && b[pos + 4] >= 128
    ensures ScanChunks(b, pos, f).NoData?
  {
    var next := pos + 8 + ChunkSizeAsRead(b[pos + 4]);
    assert next > |b|;
  }

  /** A header written by WriteHeader, followed by any payload, is read back
      with its payload at byte 44 and its channel count and rate; the RIFF size
      field (bytes 4..7, the one CloseFile patches) plays no part. */
  lemma {:induction false} ScanMinimalHeader(b: seq<byte>, waveSize: int, channels: int, rate: int, f: Format)
    requires |b| >= HEADER_SIZE
    requires b[12..HEADER_SIZE] == HeaderBytes(waveSize, channels, rate)[12..HEADER_SIZE]
    ensures ScanChunks(b, 12, f) == DataAt(HEADER_SIZE, ReadFormat(b[20..36], f))
    ensures ReadFormat(b[20..36], f).trackCount == f.trackCount + channels % TWO16
    ensures ReadFormat(b[20..36], f).rate == if rate % TWO32 == 0 then DEFAULT_SAMPLERATE else rate % TWO32
  {
    var h := HeaderBytes(waveSize, channels, rate);
    HeaderFields(waveSize, channels, rate);
    forall i | 12 <= i < HEADER_SIZE ensures b[i] == h[i] {
      assert b[12..HEADER_SIZE][i - 12] == h[12..HEADER_SIZE][i - 12];
    }
    assert b[12..16] == FMT by {
      assert h[12..16] == FMT;
    }
    assert b[16] == 16 by {
      assert GetLE32(h, 16) == 16;
    }
    assert b[36..40] == DATA by {
      assert h[36..40] == DATA;
    }
    assert ScanChunks(b, 36, ReadFormat(b[20..36], f)) == DataAt(HEADER_SIZE, ReadFormat(b[20..36], f));
    var body := b[20..36];
    assert GetLE16(body, 2) == GetLE16(h, 22);
    assert GetLE32(body, 4) == GetLE32(h, 24);
  }

  /** Payload size of the silent file OpenFile creates: four seconds of
      MAX_TRACKS channels (the rate x MAX_TRACKS product is 32-bit arithmetic). */
  function FreshPayloadSize(rate: word): nat
  {
    ((rate * MAX_TRACKS) % TWO32) * SAMPLE_SIZE * 4
  }

  /** The file OpenFile makes of a file without a RIFF/WAVE signature. */
  function FreshFile(rate: word): (b: seq<byte>)
    ensures |b| == HEADER_SIZE + FreshPayloadSize(rate)
  {
    HeaderBytes(FreshPayloadSize(rate), MAX_TRACKS, rate) + Zeros(FreshPayloadSize(rate))
  }

  /** The silent payload holds exactly four seconds of frames. */
  lemma {:induction false} FreshPayloadFrames(rate: word)
    requires rate < 0x1000_0000
    ensures FreshPayloadSize(rate) / (MAX_TRACKS * SAMPLE_SIZE) == 4 * rate
  {
    assert (rate * MAX_TRACKS) % TWO32 == rate * MAX_TRACKS;
    assert FreshPayloadSize(rate) == 64 * (4 * rate);
  }

  lemma WordIsItsOwnReduction(w: word)
    ensures w % TWO32 == w
  {
  }

  /** A freshly created file opens as MAX_TRACKS tracks of four seconds of
      silence at the given rate. */
  lemma {:induction false} FreshFileOpens(rate: word, f: Format)
    requires 0 < rate < 0x1000_0000
    ensures var b := FreshFile(rate);
      ScanChunks(b, 12, f) == DataAt(HEADER_SIZE, ReadFormat(b[20..36], f))
      && ReadFormat(b[20..36], f).trackCount == f.trackCount + MAX_TRACKS
      && ReadFormat(b[20..36], f).rate == rate
      && (|b| - HEADER_SIZE) / (MAX_TRACKS * SAMPLE_SIZE) == 4 * rate
  {
    var b := FreshFile(rate);
    var h := HeaderBytes(FreshPayloadSize(rate), MAX_TRACKS, rate);
    assert b[12..HEADER_SIZE] == h[12..HEADER_SIZE] by {
      assert b[..HEADER_SIZE] == h;
    }
    ScanMinimalHeader(b, FreshPayloadSize(rate), MAX_TRACKS, rate, f);
    WordIsItsOwnReduction(rate);
    FreshPayloadFrames(rate);
  }

  /** The file OpenFile leaves behind once the payload is found at `start`:
      as it was when the payload already starts at byte 44, imported
      otherwise. */
  function Loaded(b: seq<byte>, start: nat, channels: int, rate: int): (r: seq<byte>)
    requires start <= |b|
    ensures |r| >= HEADER_SIZE || start == HEADER_SIZE
  {
    if start == HEADER_SIZE then b else Imported(b, start, channels, rate)
  }

  /** The file after the import step: a fresh minimal header for the payload
      that started at `start`, then that payload. */
  function Imported(b: seq<byte>, start: nat, channels: int, rate: int): (r: seq<byte>)
    requires start <= |b|
    ensures |r| == HEADER_SIZE + (|b| - start)
  {
    HeaderBytes(|b| - start, channels, rate) + b[start..]
  }

  /** Before the first fmt chunk the scan carries the format it started
      with unchanged, and the first fmt chunk replaces everything in it but
      the track count: two scans of the same bytes that start with the same
      track count end alike whenever one of them reads a fmt chunk. */
  lemma {:induction false} ScanSameCount(b: seq<byte>, pos: nat, f: Format, g: Format)
    requires f.trackCount == g.trackCount && !f.fmtSeen
    ensures ScanChunks(b, pos, f).fmt.fmtSeen ==> ScanChunks(b, pos, f) == ScanChunks(b, pos, g)
    decreases if pos <= |b| then |b| - pos else 0
  {
    if pos + 8 <= |b| {
      var next := pos + 8 + ChunkSizeAsRead(b[pos + 4]);
      ScanStep(b, pos, f);
      ScanStep(b, pos, g);
      if b[pos..pos + 4] == FMT {
        if pos + 24 <= |b| {
          assert ReadFormat(b[pos + 8..pos + 24], f) == ReadFormat(b[pos + 8..pos + 24], g);
        }
      } else if b[pos..pos + 4] != DATA {
        ScanSameCount(b, next, f, g);
      }
    }
  }

  /** An imported file is read back with its payload at byte 44, the channel
      count and rate of its header, and the RIFF/WAVE signature. */
  lemma {:induction false} ImportedReopens(b: seq<byte>, start: nat, channels: int, rate: int, f: Format)
    requires start <= |b|
    ensures var r := Imported(b, start, channels, rate);
      Signed(r)
      && ScanChunks(r, 12, f) == DataAt(HEADER_SIZE, ReadFormat(r[20..36], f))
      && ReadFormat(r[20..36], f).trackCount == f.trackCount + channels % TWO16
      && ReadFormat(r[20..36], f).rate == if rate % TWO32 == 0 then DEFAULT_SAMPLERATE else rate % TWO32
  {
    var r := Imported(b, start, channels, rate);
    var h := HeaderBytes(|b| - start, channels, rate);
    assert r[..HEADER_SIZE] == h;
    assert r[12..HEADER_SIZE] == h[12..HEADER_SIZE];
    HeaderFields(|b| - start, channels, rate);
    assert r[..4] == h[0..4] && r[8..12] == h[8..12];
    ScanMinimalHeader(r, |b| - start, channels, rate, f);
  }

  /** The silent file carries the RIFF/WAVE signature. */
  lemma FreshFileSigned(rate: word)
    ensures Signed(FreshFile(rate))
  {
    var b := FreshFile(rate);
    var h := HeaderBytes(FreshPayloadSize(rate), MAX_TRACKS, rate);
    HeaderFields(FreshPayloadSize(rate), MAX_TRACKS, rate);
    assert b[..4] == h[0..4] && b[8..12] == h[8..12];
  }
}
