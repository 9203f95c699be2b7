/** The recorder engine of multijack.cpp: the global state of the program as
    the fields of one object, and the functions that change it. */
module Multijack {
  import opened Bytes
  import opened Samples
  import opened Tracks
  import opened Transport
  import opened Files
  import opened Wave
  import opened Recording
  import opened Controls
  import opened Keys
  import opened Config

  /** Frames of the period the read buffer is sized for. */
  const PERIOD_SIZE: nat := 128

  /** The RIFF size CloseFile stores at byte 4 describes the file: once it is
      written over a file of at least 8 bytes whose end of data is its end,
      it decodes to the file length minus 8, and the length is unchanged. */
  lemma {:induction false} RiffSizePatched(s: seq<byte>)
    requires 8 <= |s| < TWO32 + 8
    ensures var r := Overwrite(s, 4, LE32(|s| - 8));
      |r| == |s| && GetLE32(r, 4) == |s| - 8
      && r[..4] == s[..4] && r[8..] == s[8..]
  {
    var r := Overwrite(s, 4, LE32(|s| - 8));
    OverwriteInside(s, 4, LE32(|s| - 8));
    assert r[4..8] == LE32(|s| - 8);
    LE32RoundTrip(|s| - 8);
    assert GetLE32(r, 4) == GetLE32(r[4..8], 0);
  }

  /** The whole frames one period reads: `n` frames of `tracks` samples are
      asked for, and a frame counts only when all of it arrived. Nothing is
      read without an open file. */
  function PeriodFrames(fdOpen: bool, s: seq<byte>, pos: nat, n: nat, tracks: nat): (frames: nat)
    ensures frames <= n
    ensures !fdOpen || tracks == 0 ==> frames == 0
    ensures 4 * (frames * tracks) <= Available(|s|, pos, n * (4 * tracks))
  {
    if !fdOpen || tracks == 0 then 0
    else
      var k := Available(|s|, pos, n * (4 * tracks));
      QuotientBound(k, 4 * tracks, n);
      WholeFrames(k, 4 * tracks)
  }

  /** The whole frames in `k` bytes read. */
  function WholeFrames(k: nat, frameSize: nat): (frames: nat)
    requires frameSize > 0
    ensures frames * frameSize <= k
  {
    QuotientBound(k, frameSize, k);
    k / frameSize
  }

  /** k / d is at most n when k is at most n * d, and d times it is at most k. */
  lemma {:induction false} QuotientBound(k: nat, d: nat, n: nat)
    requires d > 0 && k <= n * d
    ensures k / d <= n && (k / d) * d <= k
  {
  }

  /** The monitor value of track t for frame f of an n-frame period whose
      file sample is w. */
  function Monitor(s: State, f: nat, n: nat, t: Track, w: word): real
    requires n > 0
  {
    Faded(s, f, n, Mix(t, Float32Value(w)))
  }

  /** The file after the extension at the end of the media while recording:
      one zero byte written `n * frameSize - 1` bytes past the end (that
      count an unsigned 32-bit value), which leaves a hole of zero bytes. */
  function Extended(s: seq<byte>, n: nat, frameSize: nat): (r: seq<byte>)
    ensures |r| == |s| + Uint32(n * frameSize - 1) + 1
    ensures r[..|s|] == s
    ensures forall i :: |s| <= i < |r| ==> r[i] == 0
  {
    Overwrite(s, |s| + Uint32(n * frameSize - 1), [0])
  }

  /** Whether Record may touch the file: rolling, record-enabled, a file
      open and at least one leg armed. */
  predicate RecordArmed(transport: State, recordEnabled: bool, fdOpen: bool, recA: int, recB: int)
  {
    transport == Rolling && recordEnabled && fdOpen && (recA != -1 || recB != -1)
  }

  /** The byte offset Record rewrites: the frame `recordOffset` frames behind
      the head, which is where the input heard now was played. */
  function RewriteAt(start: nat, head: int, recordOffset: word, tracks: nat): (at: nat)
    requires head >= recordOffset
    ensures at == start + (head - recordOffset) * (4 * tracks)
  {
    NonNegativeProduct(head - recordOffset, 4 * tracks);
    start + (head - recordOffset) * (4 * tracks)
  }

  lemma NonNegativeProduct(a: nat, b: nat)
    ensures a * b >= 0
  {
  }

  /** What Record returns: false when it may not record or the block behind
      the head could not be read whole, true otherwise (also while the head
      is still within the latency of the start). */
  predicate RecordResult(s: seq<byte>, armed: bool, start: nat, head: int, recordOffset: word, tracks: nat, n: nat)
  {
    armed && (head < recordOffset || Offset(tracks, n) == 0
              || RewriteAt(start, head, recordOffset, tracks) + 4 * Offset(tracks, n) <= |s|)
  }

  /** The file after Record: the n-frame block behind the head rewritten with
      the inputs stamped on the armed tracks; unchanged when Record returns
      early. */
  function RecordedFile(s: seq<byte>, armed: bool, start: nat, head: int, recordOffset: word, tracks: nat, n: nat,
                        recA: int, recB: int, inA: seq<word>, inB: seq<word>): seq<byte>
    requires |inA| >= n && |inB| >= n
    requires armed ==> -1 <= recA < tracks && -1 <= recB < tracks
  {
    if !armed || head < recordOffset || Offset(tracks, n) == 0 then s
    else
      var at := RewriteAt(start, head, recordOffset, tracks);
      if at + 4 * Offset(tracks, n) > |s| then s
      else Overwrite(s, at, RecordedBytes(s, at, tracks, n, recA, recB, inA, inB))
  }

  class Recorder {
    /** The WAVE file, while `fdOpen`; g_fdWave is a valid descriptor exactly then. */
    var file: File
    var fdOpen: bool
    /** g_pReadBuffer: one period of samples of every track. */
    var readBuffer: array<word>
    /** g_vTracks */
    var tracks: seq<Track>
    /** g_nTransport */
    var transport: State
    /** g_lHeadPos and g_lLastFrame, in frames. */
    var head: int
    var lastFrame: int
    /** g_offStartOfData and g_offEndOfData, in bytes. */
    var startOfData: nat
    var endOfData: int
    /** g_nFrameSize: bytes per frame of all tracks. */
    var frameSize: nat
    /** g_nSamplerate */
    var sampleRate: word
    /** g_bRecordEnabled, and the tracks armed for inputs A and B (-1: none). */
    var recordEnabled: bool
    var recA: int
    var recB: int
    /** g_nSelectedTrack */
    var selected: word
    /** g_nCaptureLatency, g_nPlaybackLatency and their sum g_nRecordOffset. */
    var captureLatency: word
    var playbackLatency: word
    var recordOffset: word

    /** The state main() sets up before the first project is loaded; the
        remaining globals are zero-initialised. `buffer` is the read buffer
        the project load allocates, and `file` the object a later OpenFile
        replaces. */
    constructor (buffer: array<word>, unopened: File)
      ensures readBuffer == buffer && file == unopened && !fdOpen && tracks == []
      ensures transport == Stopped && !recordEnabled && selected == 0 && recA == -1 && recB == -1
      ensures head == 0 && lastFrame == 0 && startOfData == 0 && endOfData == 0
      ensures frameSize == 0 && sampleRate == 0
      ensures captureLatency == 0 && playbackLatency == 0 && recordOffset == 0
    {
      file := unopened;
      fdOpen := false;
      readBuffer := buffer;
      tracks := [];
      transport := Stopped;
      head, lastFrame := 0, 0;
      startOfData, endOfData := 0, 0;
      frameSize, sampleRate := 0, 0;
      recordEnabled := false;
      recA, recB := -1, -1;
      selected := 0;
      captureLatency, playbackLatency, recordOffset := 0, 0, 0;
    }

    /** OpenFile (multijack.cpp:540-669), with the two defects described in
        README corrected: `disk` is what open() finds (empty for a created
        file) when `openOk`, and `jackRate` the JACK server's rate. A file
        without a RIFF/WAVE signature is replaced by four seconds of
        silence on MAX_TRACKS tracks; then the chunks are scanned from byte
        12. At a data chunk with a format of at least one channel the
        payload is moved to byte 44 under a fresh minimal header when it
        starts anywhere else, and the length is taken from the file. A data
        chunk without such a format is refused instead of dividing by a
        zero frame size. */
    method OpenFile(disk: seq<byte>, openOk: bool, jackRate: word) returns (ok: bool)
      modifies this
      ensures readBuffer == old(readBuffer) && transport == old(transport) && head == old(head)
      ensures recordEnabled == old(recordEnabled) && recA == old(recA) && recB == old(recB)
      ensures selected == old(selected) && recordOffset == old(recordOffset)
      ensures captureLatency == old(captureLatency) && playbackLatency == old(playbackLatency)
      ensures old(fdOpen) || !openOk ==>
        !ok && fdOpen == old(fdOpen) && file == old(file) && tracks == old(tracks)
        && sampleRate == old(sampleRate) && frameSize == old(frameSize) && lastFrame == old(lastFrame)
        && startOfData == old(startOfData) && endOfData == old(endOfData)
      ensures !old(fdOpen) && openOk ==> fdOpen && fresh(file) && Appended(tracks, old(tracks))
      ensures !old(fdOpen) && openOk && ok ==>
        startOfData == HEADER_SIZE && endOfData == |file.bytes|
        && frameSize > 0 && lastFrame == DivTrunc(|file.bytes| - HEADER_SIZE, frameSize)
      ensures !old(fdOpen) && openOk ==>
        var o := Opening(disk, Format(|old(tracks)|, old(sampleRate), old(frameSize), false), jackRate);
        ok == o.ok && file.bytes == o.bytes && o.fmt == Format(|tracks|, sampleRate, frameSize, o.fmt.fmtSeen)
        && (ok ==> file.pos == o.pos)
    {
      if fdOpen || !openOk {
        return false;
      }
      var f, found, scanned, rate, size := OpenWave(disk, sampleRate, jackRate, tracks, frameSize);
      Install(f, found, scanned, rate, size);
      ok := found;
    }

    /** The fields OpenFile sets once the file is scanned (multijack.cpp:616-617, 659-660):
        the descriptor, the tracks and the format read; when a data chunk
        was found, the data bounds and the length in frames. */
    method Install(f: File, found: bool, scanned: seq<Track>, rate: word, size: nat)
      requires found ==> size > 0
      modifies this
      ensures file == f && fdOpen && tracks == scanned && sampleRate == rate && frameSize == size
      ensures found ==>
        startOfData == HEADER_SIZE && endOfData == |f.bytes|
        && lastFrame == DivTrunc(|f.bytes| - HEADER_SIZE, size)
      ensures !found ==> startOfData == old(startOfData) && endOfData == old(endOfData) && lastFrame == old(lastFrame)
      ensures readBuffer == old(readBuffer) && transport == old(transport) && head == old(head)
      ensures recordEnabled == old(recordEnabled) && recA == old(recA) && recB == old(recB)
      ensures selected == old(selected) && recordOffset == old(recordOffset)
      ensures captureLatency == old(captureLatency) && playbackLatency == old(playbackLatency)
    {
      file, fdOpen := f, true;
      tracks, sampleRate, frameSize := scanned, rate, size;
      if found {
        startOfData, endOfData := HEADER_SIZE, |f.bytes|;
        lastFrame := DivTrunc(endOfData - startOfData, frameSize);
      }
    }

    /** WriteHeader (multijack.cpp:693-714): the 44-byte header for
        `waveSize` bytes of `channels` tracks at the current rate, written as
        36 bytes at 0 and 8 at 36; nothing when no file is open. */
    method WriteHeader(waveSize: int, channels: int)
      modifies file
      ensures fdOpen ==> file.bytes == Overwrite(old(file.bytes), 0, HeaderBytes(waveSize, channels, sampleRate))
      ensures !fdOpen ==> file.bytes == old(file.bytes)
      ensures file.pos == old(file.pos)
    {
      if !fdOpen {
        return;
      }
      PutHeader(file, waveSize, channels, sampleRate);
    }

    /** CloseFile (multijack.cpp:732-748): when a file is open the RIFF size
        (end of data - 8) is written at byte 4 and the descriptor closed;
        a rolling transport is asked to stop and the tracks are dropped. The
        frame size, the arms and the length are left as they were. */
    method CloseFile()
      modifies this, file
      ensures old(fdOpen) ==> file.bytes == Overwrite(old(file.bytes), 4, LE32(old(endOfData) - 8))
      ensures !old(fdOpen) ==> file.bytes == old(file.bytes)
      ensures file == old(file) && file.pos == old(file.pos) && !fdOpen && tracks == []
      ensures transport == if old(transport) == Rolling then Stop else old(transport)
      ensures readBuffer == old(readBuffer) && head == old(head) && lastFrame == old(lastFrame)
      ensures startOfData == old(startOfData) && endOfData == old(endOfData) && frameSize == old(frameSize)
      ensures sampleRate == old(sampleRate) && recordEnabled == old(recordEnabled)
      ensures recA == old(recA) && recB == old(recB) && selected == old(selected)
      ensures captureLatency == old(captureLatency) && playbackLatency == old(playbackLatency)
      ensures recordOffset == old(recordOffset)
    {
      if fdOpen {
        PWriteLE32(file, endOfData - 8, 4);
      }
      fdOpen := false;
      if transport == Rolling {
        transport := Stop;
      }
      tracks := [];
    }

    /** UpdateLength (multijack.cpp:887-891): the number of whole frames
        between the start and the end of the data; nothing while the frame
        size is 0. */
    method UpdateLength()
      modifies this
      ensures frameSize > 0 ==> lastFrame == DivTrunc(endOfData - startOfData, frameSize)
      ensures frameSize == 0 ==> lastFrame == old(lastFrame)
      ensures file == old(file) && fdOpen == old(fdOpen) && readBuffer == old(readBuffer) && tracks == old(tracks)
      ensures transport == old(transport) && head == old(head)
      ensures startOfData == old(startOfData) && endOfData == old(endOfData) && frameSize == old(frameSize)
      ensures sampleRate == old(sampleRate) && recordEnabled == old(recordEnabled)
      ensures recA == old(recA) && recB == old(recB) && selected == old(selected)
      ensures captureLatency == old(captureLatency) && playbackLatency == old(playbackLatency)
      ensures recordOffset == old(recordOffset)
    {
      if frameSize == 0 {
        return;
      }
      lastFrame := DivTrunc(endOfData - startOfData, frameSize);
    }

    /** OnJackProcess (multijack.cpp:26-98), the audio callback, for a period
        of n frames. STOPPED does nothing; STOPPING silences every output and
        settles in STOPPED. Otherwise a stop is requested near the end of the
        media when not recording, the next n frames are read at the file
        offset and mixed to the outputs with the fades, the head advances by
        the whole frames read, a requested stop or start is served, and at the
        end of the media the file grows by a period while recording or the
        transport stops while playing; then the inputs are recorded. `out`
        holds the output port buffers, one row per track, and `inA`/`inB` the
        input port buffers. */
    method Process(n: nat, out: array2<real>, inA: array<word>, inB: array<word>)
      requires out.Length0 == |tracks| && n <= out.Length1
      requires inA.Length >= n && inB.Length >= n
      requires readBuffer != inA && readBuffer != inB
      requires n * |tracks| <= readBuffer.Length
      requires 4 * (n * |tracks|) < TWO32
      requires fdOpen ==> frameSize == 4 * |tracks| && -1 <= recA < |tracks| && -1 <= recB < |tracks|
      modifies this, file, readBuffer, out
      ensures file == old(file) && fdOpen == old(fdOpen) && readBuffer == old(readBuffer) && tracks == old(tracks)
      ensures startOfData == old(startOfData) && frameSize == old(frameSize)
      ensures sampleRate == old(sampleRate) && recordEnabled == old(recordEnabled)
      ensures recA == old(recA) && recB == old(recB) && selected == old(selected)
      ensures captureLatency == old(captureLatency) && playbackLatency == old(playbackLatency)
      ensures recordOffset == old(recordOffset)
      ensures Deck(transport, head, lastFrame)
        == Period(Deck(old(transport), old(head), old(lastFrame)), recordEnabled, n,
                  PeriodFrames(fdOpen, old(file.bytes), old(file.pos), n, |tracks|))
      ensures old(transport) == Stopped ==>
        forall c, f :: 0 <= c < out.Length0 && 0 <= f < out.Length1 ==> out[c, f] == old(out[c, f])
      ensures old(transport) == Stopping ==>
        forall c, f :: 0 <= c < out.Length0 && 0 <= f < out.Length1 ==>
          out[c, f] == if f < n then 0.0 else old(out[c, f])
      ensures !Idle(old(transport)) ==>
        var frames := PeriodFrames(fdOpen, old(file.bytes), old(file.pos), n, |tracks|);
        var mixing := MixState(Deck(old(transport), old(head), old(lastFrame)), recordEnabled, n);
        forall c, f :: 0 <= c < out.Length0 && 0 <= f < out.Length1 ==>
          out[c, f] == if f < frames
            then Monitor(mixing, f, n, tracks[c],
                         GetLE32(old(file.bytes), old(file.pos) + 4 * SampleIndex(|tracks|, frames, f, c)))
            else old(out[c, f])
      ensures Idle(old(transport)) ==>
        file.bytes == old(file.bytes) && file.pos == old(file.pos) && endOfData == old(endOfData)
      ensures !Idle(old(transport)) ==>
        var frames := PeriodFrames(fdOpen, old(file.bytes), old(file.pos), n, |tracks|);
        var grown := recordEnabled && old(head) + frames >= old(lastFrame);
        var grownFile := if grown && fdOpen then Extended(old(file.bytes), n, frameSize) else old(file.bytes);
        file.bytes == RecordedFile(grownFile, RecordArmed(transport, recordEnabled, fdOpen, recA, recB),
                                   startOfData, head, recordOffset, |tracks|, n, recA, recB, inA[..], inB[..])
        && endOfData == (if !grown then old(endOfData) else if fdOpen then |grownFile| else 0)
        && file.pos == (if !fdOpen then old(file.pos) else if grown then |grownFile|
                        else old(file.pos) + Available(|old(file.bytes)|, old(file.pos), n * frameSize))
    {
      if transport == Stopped {
        return;
      } else if transport == Stopping {
        forall c, f | 0 <= c < |tracks| && 0 <= f < n {
          out[c, f] := 0.0;
        }
        transport := Stopped;
        return;
      }
      Roll(n, out, inA, inB);
    }

    /** OnJackProcess (multijack.cpp:45-97) once the transport is neither
        STOPPED nor STOPPING: play the period, handle the end of the media,
        then record. */
    method Roll(n: nat, out: array2<real>, inA: array<word>, inB: array<word>)
      requires !Idle(transport)
      requires out.Length0 == |tracks| && n <= out.Length1
      requires inA.Length >= n && inB.Length >= n
      requires readBuffer != inA && readBuffer != inB
      requires n * |tracks| <= readBuffer.Length
      requires fdOpen ==> frameSize == 4 * |tracks| && -1 <= recA < |tracks| && -1 <= recB < |tracks|
      modifies this, file, readBuffer, out
      ensures file == old(file) && fdOpen == old(fdOpen) && readBuffer == old(readBuffer) && tracks == old(tracks)
      ensures startOfData == old(startOfData) && frameSize == old(frameSize)
      ensures sampleRate == old(sampleRate) && recordEnabled == old(recordEnabled)
      ensures recA == old(recA) && recB == old(recB) && selected == old(selected)
      ensures captureLatency == old(captureLatency) && playbackLatency == old(playbackLatency)
      ensures recordOffset == old(recordOffset)
      ensures Deck(transport, head, lastFrame)
        == Period(Deck(old(transport), old(head), old(lastFrame)), recordEnabled, n,
                  PeriodFrames(fdOpen, old(file.bytes), old(file.pos), n, |tracks|))
      ensures var frames := PeriodFrames(fdOpen, old(file.bytes), old(file.pos), n, |tracks|);
        var mixing := MixState(Deck(old(transport), old(head), old(lastFrame)), recordEnabled, n);
        forall c, f :: 0 <= c < out.Length0 && 0 <= f < out.Length1 ==>
          out[c, f] == if f < frames
            then Monitor(mixing, f, n, tracks[c],
                         GetLE32(old(file.bytes), old(file.pos) + 4 * SampleIndex(|tracks|, frames, f, c)))
            else old(out[c, f])
      ensures var frames := PeriodFrames(fdOpen, old(file.bytes), old(file.pos), n, |tracks|);
        var grown := recordEnabled && old(head) + frames >= old(lastFrame);
        var grownFile := if grown && fdOpen then Extended(old(file.bytes), n, frameSize) else old(file.bytes);
        file.bytes == RecordedFile(grownFile, RecordArmed(transport, recordEnabled, fdOpen, recA, recB),
                                   startOfData, head, recordOffset, |tracks|, n, recA, recB, inA[..], inB[..])
        && endOfData == (if !grown then old(endOfData) else if fdOpen then |grownFile| else 0)
        && file.pos == (if !fdOpen then old(file.pos) else if grown then |grownFile|
                        else old(file.pos) + Available(|old(file.bytes)|, old(file.pos), n * frameSize))
    {
      var frames := Play(n, out);
      EndOfMedia(n);
      var _ := Record(n, inA, inB);
    }

    /** The playing part of OnJackProcess (multijack.cpp:45-75): the stop
        request near the end of the media, the read and mix of the period,
        the head's advance, and the serving of a requested stop or start. */
    method Play(n: nat, out: array2<real>) returns (frames: nat)
      requires !Idle(transport)
      requires out.Length0 == |tracks| && n <= out.Length1
      requires n * |tracks| <= readBuffer.Length
      requires fdOpen ==> frameSize == 4 * |tracks|
      modifies this, file, readBuffer, out
      ensures file == old(file) && fdOpen == old(fdOpen) && readBuffer == old(readBuffer) && tracks == old(tracks)
      ensures startOfData == old(startOfData) && endOfData == old(endOfData) && frameSize == old(frameSize)
      ensures sampleRate == old(sampleRate) && recordEnabled == old(recordEnabled)
      ensures recA == old(recA) && recB == old(recB) && selected == old(selected)
      ensures captureLatency == old(captureLatency) && playbackLatency == old(playbackLatency)
      ensures recordOffset == old(recordOffset) && lastFrame == old(lastFrame)
      ensures frames == PeriodFrames(fdOpen, old(file.bytes), old(file.pos), n, |tracks|)
      ensures transport == Served(MixState(Deck(old(transport), old(head), old(lastFrame)), recordEnabled, n))
      ensures head == old(head) + frames
      ensures file.bytes == old(file.bytes)
      ensures file.pos == if fdOpen then old(file.pos) + Available(|old(file.bytes)|, old(file.pos), n * frameSize)
                          else old(file.pos)
      ensures var mixing := MixState(Deck(old(transport), old(head), old(lastFrame)), recordEnabled, n);
        forall c, f :: 0 <= c < out.Length0 && 0 <= f < out.Length1 ==>
          out[c, f] == if f < frames
            then Monitor(mixing, f, n, tracks[c],
                         GetLE32(old(file.bytes), old(file.pos) + 4 * SampleIndex(|tracks|, frames, f, c)))
            else old(out[c, f])
    {
      NearEnd(n);
      ghost var mixing := transport;
      frames := ReadAndMix(n, out);
      assert transport == mixing;
      Serve(frames);
    }

    /** The stop Play requests when playback is within two periods of the
        last frame (multijack.cpp:45-46). */
    method NearEnd(n: nat)
      requires !Idle(transport)
      modifies this
      ensures transport == MixState(Deck(old(transport), old(head), old(lastFrame)), recordEnabled, n)
      ensures file == old(file) && fdOpen == old(fdOpen) && readBuffer == old(readBuffer) && tracks == old(tracks)
      ensures startOfData == old(startOfData) && endOfData == old(endOfData) && frameSize == old(frameSize)
      ensures sampleRate == old(sampleRate) && recordEnabled == old(recordEnabled)
      ensures recA == old(recA) && recB == old(recB) && selected == old(selected)
      ensures captureLatency == old(captureLatency) && playbackLatency == old(playbackLatency)
      ensures recordOffset == old(recordOffset) && lastFrame == old(lastFrame) && head == old(head)
    {
      if !recordEnabled && head > lastFrame - 2 * n {
        transport := Stop;
      }
    }

    /** The head moves past the frames mixed and a requested stop or start
        is served (multijack.cpp:67-75). */
    method Serve(frames: nat)
      modifies this
      ensures transport == Served(old(transport)) && head == old(head) + frames
      ensures file == old(file) && fdOpen == old(fdOpen) && readBuffer == old(readBuffer) && tracks == old(tracks)
      ensures startOfData == old(startOfData) && endOfData == old(endOfData) && frameSize == old(frameSize)
      ensures sampleRate == old(sampleRate) && recordEnabled == old(recordEnabled)
      ensures recA == old(recA) && recB == old(recB) && selected == old(selected)
      ensures captureLatency == old(captureLatency) && playbackLatency == old(playbackLatency)
      ensures recordOffset == old(recordOffset) && lastFrame == old(lastFrame)
    {
      head := head + frames;
      if transport == Stop {
        transport := Stopping;
      }
      if transport == Start {
        transport := Rolling;
      }
    }

    /** The end of the media (multijack.cpp:79-92): once the head reaches the
        last frame, a recording grows the file and the tape by a period and
        moves the head past it, and playback stops. */
    method EndOfMedia(n: nat)
      modifies this, file
      ensures file == old(file) && fdOpen == old(fdOpen) && readBuffer == old(readBuffer) && tracks == old(tracks)
      ensures startOfData == old(startOfData) && frameSize == old(frameSize)
      ensures sampleRate == old(sampleRate) && recordEnabled == old(recordEnabled)
      ensures recA == old(recA) && recB == old(recB) && selected == old(selected)
      ensures captureLatency == old(captureLatency) && playbackLatency == old(playbackLatency)
      ensures recordOffset == old(recordOffset)
      ensures old(head) < old(lastFrame) ==>
        transport == old(transport) && head == old(head) && lastFrame == old(lastFrame)
        && endOfData == old(endOfData) && file.bytes == old(file.bytes) && file.pos == old(file.pos)
      ensures old(head) >= old(lastFrame) && !recordEnabled ==>
        transport == Stopping && head == old(head) && lastFrame == old(lastFrame)
        && endOfData == old(endOfData) && file.bytes == old(file.bytes) && file.pos == old(file.pos)
      ensures old(head) >= old(lastFrame) && recordEnabled ==>
        transport == old(transport) && head == old(head) + n && lastFrame == old(lastFrame) + n
      ensures old(head) >= old(lastFrame) && recordEnabled && fdOpen ==>
        file.bytes == Extended(old(file.bytes), n, frameSize) && endOfData == |file.bytes| && file.pos == |file.bytes|
      ensures old(head) >= old(lastFrame) && recordEnabled && !fdOpen ==>
        file.bytes == old(file.bytes) && file.pos == old(file.pos) && endOfData == 0
    {
      if head >= lastFrame {
        if recordEnabled {
          lastFrame := lastFrame + n;
          head := head + n;
          Extend(n);
        } else {
          transport := Stopping;
        }
      }
    }

    /** The read and the frame loop of OnJackProcess (multijack.cpp:48-68):
        the period's bytes are read at the file offset, and the whole frames
        among them are mixed to the outputs. Returns the frames mixed. */
    method ReadAndMix(n: nat, out: array2<real>) returns (frames: nat)
      requires out.Length0 == |tracks| && n <= out.Length1
      requires n * |tracks| <= readBuffer.Length
      requires fdOpen ==> frameSize == 4 * |tracks|
      modifies file, readBuffer, out
      ensures frames == PeriodFrames(fdOpen, old(file.bytes), old(file.pos), n, |tracks|)
      ensures file.bytes == old(file.bytes)
      ensures file.pos == if fdOpen then old(file.pos) + Available(|old(file.bytes)|, old(file.pos), n * frameSize)
                          else old(file.pos)
      ensures forall c, f :: 0 <= c < out.Length0 && 0 <= f < out.Length1 ==>
        out[c, f] == if f < frames
          then Monitor(transport, f, n, tracks[c],
                       GetLE32(old(file.bytes), old(file.pos) + 4 * SampleIndex(|tracks|, frames, f, c)))
          else old(out[c, f])
    {
      var count := |tracks|;
      ghost var s, at := file.bytes, file.pos;
      var got: int := -1;
      if fdOpen {
        assert n * frameSize == 4 * (n * count);
        got := file.ReadWords(readBuffer, n * frameSize);
      }
      frames := 0;
      if got > 0 {
        frames := WholeFrames(got, frameSize);
        assert frames == PeriodFrames(fdOpen, s, at, n, count);
        assert frames * count <= n * count;
        assert forall i :: 0 <= i < frames * count ==> readBuffer[i] == GetLE32(s, at + 4 * i);
        MixFrames(frames, n, out);
      }
    }

    /** The extension at the end of the media while recording
        (multijack.cpp:84-88): the offset is moved to a period past the end
        less one byte and a zero byte written there, which grows the file by
        a period of silence; the end of data is the new end. Without a file
        lseek fails and the end of data becomes 0. */
    method Extend(n: nat)
      modifies this, file
      ensures fdOpen ==>
        file.bytes == Extended(old(file.bytes), n, frameSize) && endOfData == |file.bytes| && file.pos == |file.bytes|
      ensures !fdOpen ==> file.bytes == old(file.bytes) && file.pos == old(file.pos) && endOfData == 0
      ensures file == old(file) && fdOpen == old(fdOpen) && readBuffer == old(readBuffer) && tracks == old(tracks)
      ensures transport == old(transport) && head == old(head) && lastFrame == old(lastFrame)
      ensures startOfData == old(startOfData) && frameSize == old(frameSize)
      ensures sampleRate == old(sampleRate) && recordEnabled == old(recordEnabled)
      ensures recA == old(recA) && recB == old(recB) && selected == old(selected)
      ensures captureLatency == old(captureLatency) && playbackLatency == old(playbackLatency)
      ensures recordOffset == old(recordOffset)
    {
      var end := -1;
      if fdOpen {
        end := file.SeekEnd(Uint32(n * frameSize - 1));
      }
      endOfData := end + 1;
      if fdOpen {
        file.Write([0]);
      }
    }

    /** The frame loop of OnJackProcess (multijack.cpp:52-66): output f of
        every track is its monitor mix of the track's sample in frame f of
        the read buffer, faded by the transport state; later outputs are not
        written. */
    method MixFrames(frames: nat, n: nat, out: array2<real>)
      requires 0 < n
      requires out.Length0 == |tracks| && frames <= out.Length1
      requires frames * |tracks| <= readBuffer.Length
      modifies out
      ensures forall c, f :: 0 <= c < out.Length0 && 0 <= f < out.Length1 ==>
        out[c, f] == if f < frames
          then Monitor(transport, f, n, tracks[c], readBuffer[SampleIndex(|tracks|, frames, f, c)])
          else old(out[c, f])
    {
      var count := |tracks|;
      for f := 0 to frames
        invariant forall c', f' :: 0 <= c' < count && 0 <= f' < out.Length1 ==>
          out[c', f'] == if f' < f
            then Monitor(transport, f', n, tracks[c'], readBuffer[SampleIndex(count, frames, f', c')])
            else old(out[c', f'])
      {
        MixFrame(f, frames, n, out);
      }
    }

    /** One pass of the inner loop: frame f of every track. */
    method MixFrame(f: nat, frames: nat, n: nat, out: array2<real>)
      requires f < frames && 0 < n
      requires out.Length0 == |tracks| && frames <= out.Length1
      requires frames * |tracks| <= readBuffer.Length
      modifies out
      ensures forall c', f' :: 0 <= c' < out.Length0 && 0 <= f' < out.Length1 ==>
        out[c', f'] == if f' == f
          then Monitor(transport, f', n, tracks[c'], readBuffer[SampleIndex(|tracks|, frames, f', c')])
          else old(out[c', f'])
    {
      var count := |tracks|;
      for c := 0 to count
        invariant forall c', f' :: 0 <= c' < count && 0 <= f' < out.Length1 ==>
          out[c', f'] == if f' == f && c' < c
            then Monitor(transport, f', n, tracks[c'], readBuffer[SampleIndex(count, frames, f', c')])
            else old(out[c', f'])
      {
        var i := SampleIndex(count, frames, f, c);
        var m := Mix(tracks[c], Float32Value(readBuffer[i]));
        out[c, f] := Faded(transport, f, n, m);
      }
    }

    /** Record (multijack.cpp:930-962): while rolling with recording enabled,
        a file open and a leg armed, the n frames `recordOffset` frames behind
        the head are read back, the inputs written over the armed tracks, and
        the block written back in place. */
    method Record(n: nat, inA: array<word>, inB: array<word>) returns (ok: bool)
      requires inA.Length >= n && inB.Length >= n
      requires readBuffer != inA && readBuffer != inB
      requires n * |tracks| <= readBuffer.Length
      requires fdOpen ==> frameSize == 4 * |tracks| && -1 <= recA < |tracks| && -1 <= recB < |tracks|
      modifies file, readBuffer
      ensures ok == RecordResult(old(file.bytes), RecordArmed(transport, recordEnabled, fdOpen, recA, recB),
                                 startOfData, head, recordOffset, |tracks|, n)
      ensures file.bytes == RecordedFile(old(file.bytes), RecordArmed(transport, recordEnabled, fdOpen, recA, recB),
                                         startOfData, head, recordOffset, |tracks|, n, recA, recB, inA[..], inB[..])
      ensures file.pos == old(file.pos)
    {
      if transport != Rolling || !recordEnabled || !fdOpen || (recA == -1 && recB == -1) {
        return false;
      }
      if head < recordOffset {
        return true;
      }
      var count := |tracks|;
      var at := RewriteAt(startOfData, head, recordOffset, count);
      assert at == startOfData + (head - recordOffset) * frameSize;
      var words := n * count;
      OffsetIsProduct(count, n);
      var size := n * frameSize;
      assert size == 4 * words;
      ghost var s := file.bytes;
      var got := file.PReadWords(readBuffer, size, at);
      if got != size {
        return false;
      }
      assert got / 4 == words;
      ghost var read := readBuffer[..words];
      assert words > 0 ==> read == Words(s, at, words);
      Stamp(n, inA, inB);
      file.PWriteWords(readBuffer, words, at);
      if words == 0 {
        OverwriteNothing(s, at);
      }
      return true;
    }

    /** The frame loop of Record (multijack.cpp:953-959): in each of the n
        frames of the buffer, the sample of track recA becomes input A's and
        then that of track recB input B's, for each leg that is armed. */
    method Stamp(n: nat, inA: array<word>, inB: array<word>)
      requires inA.Length >= n && inB.Length >= n
      requires readBuffer != inA && readBuffer != inB
      requires Offset(|tracks|, n) <= readBuffer.Length
      requires -1 <= recA < |tracks| && -1 <= recB < |tracks|
      modifies readBuffer
      ensures readBuffer[..Offset(|tracks|, n)]
        == Stamped(old(readBuffer[..Offset(|tracks|, n)]), |tracks|, n, n, recA, recB, inA[..], inB[..])
    {
      var count := |tracks|;
      OffsetIsProduct(count, n);
      var words := count * n;
      ghost var block := readBuffer[..words];
      for f := 0 to n
        invariant readBuffer[..words] == Stamped(block, count, n, f, recA, recB, inA[..], inB[..])
      {
        ghost var before := readBuffer[..words];
        FrameInside(count, f, n);
        OffsetIsProduct(count, f);
        var base := f * count;
        PutSample(readBuffer, words, base, recA, inA[f]);
        PutSample(readBuffer, words, base, recB, inB[f]);
        assert Stamped(block, count, n, f + 1, recA, recB, inA[..], inB[..])
          == Put(Put(before, base, recA, inA[f]), base, recB, inB[f]);
      }
    }

    /** The globals other than the file and the read buffer. */
    function Snapshot(): Globals
      reads this
    {
      Globals(tracks, transport, head, lastFrame, startOfData, endOfData, frameSize, sampleRate,
              recordEnabled, recA, recB, selected, captureLatency, playbackLatency, recordOffset, fdOpen)
    }

    /** HandleControl (multijack.cpp:352-520) for one key: the globals become
        Control of the old ones, and the descriptor moves to the head when
        SetPlayHead goes through. Port connections, the menu and the JACK
        transport relocation are not part of the model. */
    method HandleControl(key: Key)
      requires CanHandle(Snapshot(), key)
      modifies this, file
      ensures Snapshot() == Control(old(Snapshot()), key)
      ensures file == old(file) && file.bytes == old(file.bytes) && readBuffer == old(readBuffer)
      ensures Seeks(old(Snapshot()), key) && fdOpen && startOfData + head * frameSize >= 0 ==>
        file.pos == startOfData + head * frameSize
      ensures !(Seeks(old(Snapshot()), key) && fdOpen && startOfData + head * frameSize >= 0) ==>
        file.pos == old(file.pos)
    {
      if key in {KeyDown, KeyUp, KeyRight, KeyLeft, KeyShiftRight, KeyShiftLeft} {
        SelectionKey(key);
      } else if key in {MuteLegA, MuteLegB, MuteTrack, MuteEveryTrack} {
        MuteKey(key);
      } else if key in {ArmLegA, ArmLegB} {
        ArmKey(key);
      } else if key in {StartStop, RecordMode} {
        TransportKey(key);
      } else if key != OtherKey {
        SeekKey(key);
      }
    }

    /** The selection and level keys (multijack.cpp:352-379). */
    method SelectionKey(key: Key)
      requires key in {KeyDown, KeyUp, KeyRight, KeyLeft, KeyShiftRight, KeyShiftLeft}
      requires CanHandle(Snapshot(), key)
      modifies this
      ensures Snapshot() == Control(old(Snapshot()), key)
      ensures file == old(file) && readBuffer == old(readBuffer)
    {
      match key
      case KeyDown =>
        selected := Uint32(selected + 1);
        if selected >= |tracks| {
          selected := Uint32(|tracks| - 1);
        }
      case KeyUp =>
        if selected > 0 {
          selected := selected - 1;
        }
      case KeyRight =>
        if tracks[selected].monMix < 100 {
          tracks := tracks[selected := tracks[selected].(monMix := tracks[selected].monMix + 1)];
        }
      case KeyLeft =>
        if tracks[selected].monMix > 0 {
          tracks := tracks[selected := tracks[selected].(monMix := tracks[selected].monMix - 1)];
        }
      case KeyShiftRight =>
        tracks := tracks[selected := tracks[selected].(monMix := 100)];
      case KeyShiftLeft =>
        tracks := tracks[selected := tracks[selected].(monMix := 0)];
    }

    /** The mute keys (multijack.cpp:380-461). */
    method MuteKey(key: Key)
      requires key in {MuteLegA, MuteLegB, MuteTrack, MuteEveryTrack}
      requires CanHandle(Snapshot(), key)
      modifies this
      ensures Snapshot() == Control(old(Snapshot()), key)
      ensures file == old(file) && readBuffer == old(readBuffer)
    {
      match key
      case MuteLegA =>
        tracks := tracks[selected := tracks[selected].(muteA := !tracks[selected].muteA)];
      case MuteLegB =>
        tracks := tracks[selected := tracks[selected].(muteB := !tracks[selected].muteB)];
      case MuteTrack =>
        var both := tracks[selected].muteA && tracks[selected].muteB;
        tracks := tracks[selected := tracks[selected].(muteA := !both, muteB := !both)];
      case MuteEveryTrack =>
        MuteEvery();
    }

    /** The arm keys 'a' and 'b' (multijack.cpp:406-435). */
    method ArmKey(key: Key)
      requires key in {ArmLegA, ArmLegB}
      requires CanHandle(Snapshot(), key)
      modifies this
      ensures Snapshot() == Control(old(Snapshot()), key)
      ensures file == old(file) && readBuffer == old(readBuffer)
    {
      if key == ArmLegA {
        if recA == selected as int {
          tracks := tracks[recA := tracks[recA].(recording := false)];
          recA := -1;
        } else {
          if recA > -1 {
            tracks := tracks[recA := tracks[recA].(recording := false)];
          }
          recA := selected as int;
          tracks := tracks[recA := tracks[recA].(recording := true)];
        }
      } else {
        if recB == selected as int {
          tracks := tracks[recB := tracks[recB].(recording := false)];
          recB := -1;
        } else {
          if recB > -1 {
            tracks := tracks[recB := tracks[recB].(recording := false)];
          }
          recB := selected as int;
          tracks := tracks[recB := tracks[recB].(recording := true)];
        }
      }
    }

    /** The space bar and 'G' (multijack.cpp:462-496). */
    method TransportKey(key: Key)
      requires key in {StartStop, RecordMode}
      requires CanHandle(Snapshot(), key)
      modifies this, file
      ensures Snapshot() == Control(old(Snapshot()), key)
      ensures file == old(file) && file.bytes == old(file.bytes) && readBuffer == old(readBuffer)
      ensures Seeks(old(Snapshot()), key) && fdOpen && startOfData + head * frameSize >= 0 ==>
        file.pos == startOfData + head * frameSize
      ensures !(Seeks(old(Snapshot()), key) && fdOpen && startOfData + head * frameSize >= 0) ==>
        file.pos == old(file.pos)
    {
      if key == StartStop {
        StartStopKey();
      } else {
        RecordModeKey();
      }
    }

    /** The space bar (multijack.cpp:462-485): a stopped transport starts,
        from the top when playback had reached the end; a rolling one stops
        and ends any recording. */
    method StartStopKey()
      requires CanHandle(Snapshot(), StartStop)
      modifies this, file
      ensures Snapshot() == Control(old(Snapshot()), StartStop)
      ensures file == old(file) && file.bytes == old(file.bytes) && readBuffer == old(readBuffer)
      ensures Seeks(old(Snapshot()), StartStop) && fdOpen && startOfData + head * frameSize >= 0 ==>
        file.pos == startOfData + head * frameSize
      ensures !(Seeks(old(Snapshot()), StartStop) && fdOpen && startOfData + head * frameSize >= 0) ==>
        file.pos == old(file.pos)
    {
      if transport == Stopped {
        StartKey();
      } else if transport == Rolling {
        StopKey();
      }
    }

    /** The space bar on a stopped transport (multijack.cpp:466-473): START
        is requested and the head set, at the top when playback had reached
        the end. */
    method StartKey()
      requires transport == Stopped
      modifies this, file
      ensures var g := old(Snapshot());
        var h := if !g.recordEnabled && g.head >= g.lastFrame then 0 else g.head;
        Snapshot() == PlayHeadSet(g.(transport := Start, head := h), Int32(h))
      ensures file == old(file) && file.bytes == old(file.bytes) && readBuffer == old(readBuffer)
      ensures fdOpen && startOfData + head * frameSize >= 0 ==> file.pos == startOfData + head * frameSize
      ensures !(fdOpen && startOfData + head * frameSize >= 0) ==> file.pos == old(file.pos)
    {
      transport := Start;
      if !recordEnabled && head >= lastFrame {
        head := 0;
      }
      SetPlayHead(Int32(head));
    }

    /** The space bar on a rolling transport (multijack.cpp:474-483): STOP is
        requested, recording ends and the length is brought up to date. */
    method StopKey()
      requires transport == Rolling && -1 <= recA < |tracks| && -1 <= recB < |tracks|
      modifies this
      ensures var g := old(Snapshot());
        Snapshot() == LengthUpdated(g.(transport := Stop, recordEnabled := false,
                                       tracks := ClearRecording(g.tracks, g.recA, g.recB)))
      ensures file == old(file) && readBuffer == old(readBuffer)
    {
      transport := Stop;
      recordEnabled := false;
      StopRecording();
      UpdateLength();
    }

    /** 'G' (multijack.cpp:486-496): recording is armed or disarmed; disarming
        ends any recording. */
    method RecordModeKey()
      requires CanHandle(Snapshot(), RecordMode)
      modifies this, file
      ensures Snapshot() == Control(old(Snapshot()), RecordMode)
      ensures file == old(file) && file.bytes == old(file.bytes) && readBuffer == old(readBuffer)
      ensures file.pos == old(file.pos)
    {
      if recordEnabled {
        StopRecording();
      }
      recordEnabled := !recordEnabled;
    }

    /** HOME, END and the seek keys (multijack.cpp:497-520). */
    method SeekKey(key: Key)
      requires key in {Home, End, Back1, Forward1, Back10, Forward10}
      requires CanHandle(Snapshot(), key)
      modifies this, file
      ensures Snapshot() == Control(old(Snapshot()), key)
      ensures file == old(file) && file.bytes == old(file.bytes) && readBuffer == old(readBuffer)
      ensures Seeks(old(Snapshot()), key) && fdOpen && startOfData + head * frameSize >= 0 ==>
        file.pos == startOfData + head * frameSize
      ensures !(Seeks(old(Snapshot()), key) && fdOpen && startOfData + head * frameSize >= 0) ==>
        file.pos == old(file.pos)
    {
      var position := if key == Home then 0
        else if key == End then Int32(lastFrame)
        else SeekTarget(head, sampleRate, SeekSeconds(key));
      SetPlayHead(position);
    }

    /** 'M' (multijack.cpp:450-461): both legs of every track muted, or
        unmuted, as the opposite of the selected track's A leg. */
    method MuteEvery()
      requires selected < |tracks|
      modifies this
      ensures Snapshot() == old(Snapshot()).(tracks := MuteAll(old(tracks), !old(tracks[selected].muteA)))
      ensures file == old(file) && readBuffer == old(readBuffer)
    {
      var mute := !tracks[selected].muteA;
      ghost var before := tracks;
      var i := 0;
      while i < |tracks|
        invariant 0 <= i <= |tracks| == |before|
        invariant Snapshot() == old(Snapshot()).(tracks := tracks)
        invariant file == old(file) && readBuffer == old(readBuffer)
        invariant forall j :: 0 <= j < i ==> tracks[j] == before[j].(muteA := mute, muteB := mute)
        invariant forall j :: i <= j < |tracks| ==> tracks[j] == before[j]
      {
        tracks := tracks[i := tracks[i].(muteA := mute, muteB := mute)];
        i := i + 1;
      }
    }

    /** The recording flags of the armed tracks cleared (multijack.cpp:478-481
        and 490-493). */
    method StopRecording()
      requires -1 <= recA < |tracks| && -1 <= recB < |tracks|
      modifies this
      ensures Snapshot() == old(Snapshot()).(tracks := ClearRecording(old(tracks), old(recA), old(recB)))
      ensures file == old(file) && readBuffer == old(readBuffer)
    {
      if recA > -1 {
        tracks := tracks[recA := tracks[recA].(recording := false)];
      }
      if recB > -1 {
        tracks := tracks[recB := tracks[recB].(recording := false)];
      }
    }

    /** OnJackLatency (multijack.cpp:142-151): the capture or the playback
        latency becomes the port's maximum, and the record offset their sum
        as a 32-bit unsigned value. */
    method OnLatency(capture: bool, latency: word)
      modifies this
      ensures Snapshot() == old(Snapshot()).(
        captureLatency := if capture then latency else old(captureLatency),
        playbackLatency := if capture then old(playbackLatency) else latency,
        recordOffset := Uint32(captureLatency + playbackLatency))
      ensures file == old(file) && readBuffer == old(readBuffer)
    {
      if capture {
        captureLatency := latency;
      } else {
        playbackLatency := latency;
      }
      recordOffset := Uint32(captureLatency + playbackLatency);
    }

    /** OnJackSync (multijack.cpp:100-120): the transport follows JACK's, and
        a stop also moves the head to JACK's frame. */
    method OnSync(state: JackState, frame: word)
      modifies this
      ensures Snapshot() == old(Snapshot()).(
        transport := SyncState(state, old(transport)),
        head := if state == JackStopped then frame else old(head))
      ensures file == old(file) && readBuffer == old(readBuffer)
    {
      transport := SyncState(state, transport);
      if state == JackStopped {
        head := frame;
      }
    }

    /** SetPlayHead (multijack.cpp:750-763): refused while recording and
        rolling; otherwise the head is clamped to [0, lastFrame] and the
        descriptor moved to the head's frame. */
    method SetPlayHead(position: int)
      modifies this, file
      ensures recordEnabled && transport == Rolling ==> head == old(head) && file.pos == old(file.pos)
      ensures !(recordEnabled && transport == Rolling) ==> head == PlayHeadFor(position, lastFrame)
      ensures !(recordEnabled && transport == Rolling) && fdOpen && startOfData + head * frameSize >= 0 ==>
        file.pos == startOfData + head * frameSize
      ensures !(recordEnabled && transport == Rolling) && (!fdOpen || startOfData + head * frameSize < 0) ==>
        file.pos == old(file.pos)
      ensures file == old(file) && file.bytes == old(file.bytes)
      ensures fdOpen == old(fdOpen) && readBuffer == old(readBuffer) && tracks == old(tracks)
      ensures transport == old(transport) && lastFrame == old(lastFrame)
      ensures startOfData == old(startOfData) && endOfData == old(endOfData) && frameSize == old(frameSize)
      ensures sampleRate == old(sampleRate) && recordEnabled == old(recordEnabled)
      ensures recA == old(recA) && recB == old(recB) && selected == old(selected)
      ensures captureLatency == old(captureLatency) && playbackLatency == old(playbackLatency)
      ensures recordOffset == old(recordOffset)
    {
      if recordEnabled && transport == Rolling {
        return;
      }
      head := position;
      if head < 0 {
        head := 0;
      }
      if head > lastFrame {
        head := lastFrame;
      }
      if fdOpen {
        var _ := file.SeekSet(startOfData + head * frameSize);
      }
    }

    /** The configuration part of LoadProject (multijack.cpp:786-822):
        the levels, the leg mutes and the head position become what
        ReadConfig reads from `cfg`, the text of the .cfg file. */
    method LoadConfig(cfg: string)
      modifies this
      ensures (tracks, head) == ApplyLines(old(tracks), old(head), Pieces(cfg))
      ensures Snapshot() == old(Snapshot()).(tracks := tracks, head := head)
      ensures file == old(file) && readBuffer == old(readBuffer)
    {
      tracks, head := ReadConfig(tracks, head, cfg);
    }

    /** The configuration part of SaveProject (multijack.cpp:858-882) when
        saving under the current name: when the .cfg file can be opened for
        writing (`canWrite`) it is overwritten with the two comment lines, a
        blank line, the level and leg mutes of every track and the head
        position, and true is returned; `text` is what it then holds. */
    method SaveProject(canWrite: bool) returns (ok: bool, text: string)
      ensures ok == canWrite
      ensures text == if canWrite then ConfigText(tracks, head) else []
    {
      if !canWrite {
        return false, [];
      }
      text := SAVED_NOTE;
      text := text + EDIT_NOTE + "\n";
      ConcatThree([], SAVED_NOTE, EDIT_NOTE, "\n");
      assert [] + [SAVED_NOTE, EDIT_NOTE, "\n"] == PREAMBLE + TracksLines(tracks, 0);
      for i := 0 to |tracks|
        invariant text == Concat(PREAMBLE + TracksLines(tracks, i))
      {
        SavedTrack(tracks, i);
        text := text + LevelLine(i, tracks[i].monMix);
        text := text + MuteLine(i, 'L', tracks[i].muteA);
        text := text + MuteLine(i, 'R', tracks[i].muteB);
      }
      ConcatAppend(PREAMBLE + TracksLines(tracks, |tracks|), PositionLine(head));
      text := text + PositionLine(head);
      ok := true;
    }

    /** LoadProject (multijack.cpp:765-835): the open file is closed and the
        project's WAVE file opened as OpenFile does (`disk`, `openOk` and
        `jackRate` as there); on failure false is returned. Otherwise the
        .cfg file (`cfg`, None when it cannot be opened) sets the levels,
        the mutes and the head position of the fresh tracks, the head is
        cut to an int and clamped to the tape, the read buffer is replaced by one of
        PERIOD_SIZE frames of frameSize bytes' worth of samples, and the
        length is taken again. */
    method LoadProject(disk: seq<byte>, openOk: bool, jackRate: word, cfg: Option<string>) returns (ok: bool)
      modifies this, file
      ensures var o := Opening(disk, Format(0, old(sampleRate), old(frameSize), false), jackRate);
        ok == (openOk && o.ok)
        && (ok ==>
              var lines := if cfg.Some? then Pieces(cfg.value) else [];
              var r := ApplyLines(NewTracks(o.fmt.trackCount), old(head), lines);
              fdOpen && file.bytes == o.bytes && tracks == r.0
              && sampleRate == o.fmt.rate && sampleRate != 0 && frameSize == SAMPLE_SIZE * |tracks|
              && startOfData == HEADER_SIZE && endOfData == |file.bytes|
              && frameSize > 0 && lastFrame == DivTrunc(|file.bytes| - HEADER_SIZE, frameSize) && lastFrame >= 0
              && head == PlayHeadFor(Int32(r.1), lastFrame) && 0 <= head <= lastFrame
              && file.pos == HEADER_SIZE + head * frameSize
              && fresh(readBuffer) && readBuffer.Length == frameSize * PERIOD_SIZE)
      ensures transport == if old(transport) == Rolling then Stop else old(transport)
      ensures recordEnabled == old(recordEnabled) && recA == old(recA) && recB == old(recB)
      ensures selected == old(selected) && recordOffset == old(recordOffset)
      ensures !ok ==> readBuffer == old(readBuffer) && head == old(head)
    {
      ok := Reopen(disk, openOk, jackRate);
      if ok {
        DivTruncNonNegative(|file.bytes| - HEADER_SIZE, frameSize);
        Configure(cfg);
      }
    }

    /** The start of LoadProject (multijack.cpp:767-781): the open project is
        closed and the WAVE file opened, with the tracks its fmt chunks
        declare. */
    method Reopen(disk: seq<byte>, openOk: bool, jackRate: word) returns (ok: bool)
      modifies this, file
      ensures var o := Opening(disk, Format(0, old(sampleRate), old(frameSize), false), jackRate);
        ok == (openOk && o.ok)
        && (ok ==>
              fdOpen && fresh(file) && file.bytes == o.bytes && tracks == NewTracks(o.fmt.trackCount)
              && sampleRate == o.fmt.rate && sampleRate != 0 && frameSize == SAMPLE_SIZE * |tracks| > 0
              && startOfData == HEADER_SIZE && endOfData == |file.bytes|
              && lastFrame == DivTrunc(|file.bytes| - HEADER_SIZE, frameSize))
      ensures transport == if old(transport) == Rolling then Stop else old(transport)
      ensures readBuffer == old(readBuffer) && head == old(head)
      ensures recordEnabled == old(recordEnabled) && recA == old(recA) && recB == old(recB)
      ensures selected == old(selected) && recordOffset == old(recordOffset)
    {
      CloseFile();
      ok := OpenFile(disk, openOk, jackRate);
      if ok {
        OpenedFormatConsistent(disk, Format(0, old(sampleRate), old(frameSize), false), jackRate);
        AppendedToNone(tracks);
      }
    }

    /** The rest of LoadProject once the WAVE file is open
        (multijack.cpp:782-834): the configuration is read, the head set
        and the read buffer replaced. */
    method Configure(cfg: Option<string>)
      requires fdOpen && frameSize > 0 && transport != Rolling
      requires startOfData == HEADER_SIZE && lastFrame == DivTrunc(endOfData - startOfData, frameSize) && lastFrame >= 0
      modifies this, file
      ensures var r := ApplyLines(old(tracks), old(head), if cfg.Some? then Pieces(cfg.value) else []);
        tracks == r.0 && head == PlayHeadFor(Int32(r.1), lastFrame) && 0 <= head <= lastFrame
        && file.pos == HEADER_SIZE + head * frameSize
      ensures fresh(readBuffer) && readBuffer.Length == frameSize * PERIOD_SIZE
      ensures file == old(file) && file.bytes == old(file.bytes) && fdOpen
      ensures transport == old(transport) && lastFrame == old(lastFrame)
      ensures startOfData == old(startOfData) && endOfData == old(endOfData) && frameSize == old(frameSize)
      ensures sampleRate == old(sampleRate) && recordEnabled == old(recordEnabled)
      ensures recA == old(recA) && recB == old(recB) && selected == old(selected)
      ensures recordOffset == old(recordOffset)
    {
      if cfg.Some? {
        LoadConfig(cfg.value);
      } else {
        assert ApplyLines(tracks, head, []) == (tracks, head);
      }
      SetPlayHead(Int32(head));
      NonNegativeProduct(head, frameSize);
      readBuffer := new word[frameSize * PERIOD_SIZE];
      UpdateLength();
    }
  }

  /** One assignment of the frame loop of Record: the sample of slot c of the
      frame at `base` becomes w; slot -1 (an unarmed leg) writes nothing. */
  method PutSample(buf: array<word>, words: nat, base: nat, c: int, w: word)
    requires words <= buf.Length && -1 <= c && base + c < words
    modifies buf
    ensures buf[..words] == Put(old(buf[..words]), base, c, w)
    ensures buf[words..] == old(buf[words..])
  {
    if c != -1 {
      buf[base + c] := w;
    }
  }

  /** `tracks` is `before` with new tracks appended. */
  predicate Appended(tracks: seq<Track>, before: seq<Track>)
  {
    |tracks| >= |before| && tracks[..|before|] == before
    && forall i :: |before| <= i < |tracks| ==> tracks[i] == NewTrack
  }

  /** The loop of LoadProject over the .cfg file (multijack.cpp:788-822):
      `cfg` is its text, taken piece by piece as fgets with a 256-byte
      buffer returns it. A piece shorter than five characters is skipped;
      otherwise a two-digit track number that names a track sets its level
      or the mute of one leg, and a piece beginning "Pos=" sets the head
      position, which is not yet clamped. */
  method ReadConfig(tracks: seq<Track>, head: int, cfg: string) returns (t: seq<Track>, h: int)
    ensures (t, h) == ApplyLines(tracks, head, Pieces(cfg))
  {
    var rest := cfg;
    t, h := tracks, head;
    ghost var done: seq<string> := [];
    while rest != []
      invariant Pieces(cfg) == done + Pieces(rest)
      invariant (t, h) == ApplyLines(tracks, head, done)
      decreases |rest|
    {
      var line := rest[..PieceLength(rest)];
      rest := rest[PieceLength(rest)..];
      ApplyLinesSnoc(tracks, head, done, line);
      done := done + [line];
      if StrLen(line) >= 5 {
        var c := Channel(line);
        if c < |t| {
          t := t[c := Setting(t[c], line)];
        }
        if line[..4] == "Pos=" {
          h := Atoi(line[4..]);
        }
      }
    }
    assert done + [] == done;
  }

  /** The text saved for the first i + 1 tracks is that for the first i and
      then the three lines of track i. */
  lemma SavedTrack(tracks: seq<Track>, i: nat)
    requires i < |tracks|
    ensures Concat(PREAMBLE + TracksLines(tracks, i + 1))
      == Concat(PREAMBLE + TracksLines(tracks, i)) + LevelLine(i, tracks[i].monMix)
         + MuteLine(i, 'L', tracks[i].muteA) + MuteLine(i, 'R', tracks[i].muteB)
  {
    ConcatThree(PREAMBLE + TracksLines(tracks, i), LevelLine(i, tracks[i].monMix),
                MuteLine(i, 'L', tracks[i].muteA), MuteLine(i, 'R', tracks[i].muteB));
    assert PREAMBLE + TracksLines(tracks, i + 1) == PREAMBLE + TracksLines(tracks, i) + TrackLines(i, tracks[i]);
  }

  lemma DivTruncNonNegative(a: int, b: nat)
    requires a >= 0 && b > 0
    ensures DivTrunc(a, b) >= 0
  {
  }

  /** Tracks as a project load creates them: k tracks, each NewTrack. */
  function NewTracks(k: nat): (r: seq<Track>)
    ensures |r| == k && forall i :: 0 <= i < k ==> r[i] == NewTrack
  {
    seq(k, _ => NewTrack)
  }

  /** Tracks appended to none are all new. */
  lemma AppendedToNone(tracks: seq<Track>)
    requires Appended(tracks, [])
    ensures tracks == NewTracks(|tracks|)
  {
  }

  lemma AppendedTransitive(a: seq<Track>, b: seq<Track>, c: seq<Track>)
    requires Appended(a, b) && Appended(b, c)
    ensures Appended(a, c)
  {
    assert a[..|c|] == a[..|b|][..|c|];
  }

  /** The chunk loop of OpenFile (multijack.cpp:578-665) from the descriptor
      offset: chunk headers are read until one cannot be read whole; a fmt
      chunk adds a track per channel and sets the rate and frame size, a data
      chunk ends the scan with the offset at its payload, and any other chunk
      is skipped by its size as read. Returns whether a data chunk was found,
      whether a fmt chunk was read, and the tracks, rate and frame size. */
  method ScanForData(f: File, tracks0: seq<Track>, rate0: word, frameSize0: nat)
    returns (found: bool, formatRead: bool, tracks: seq<Track>, rate: word, frameSize: nat)
    modifies f
    ensures f.bytes == old(f.bytes)
    ensures var r := ScanChunks(f.bytes, old(f.pos), Format(|tracks0|, rate0, frameSize0, false));
      found == r.DataAt? && (found ==> f.pos == r.start)
      && r.fmt == Format(|tracks|, rate, frameSize, formatRead)
    ensures Appended(tracks, tracks0)
  {
    ghost var b := f.bytes;
    ghost var result := ScanChunks(b, f.pos, Format(|tracks0|, rate0, frameSize0, false));
    tracks, rate, frameSize, formatRead := tracks0, rate0, frameSize0, false;
    found := false;
    var more := true;
    while more
      invariant f.bytes == b && Appended(tracks, tracks0)
      invariant more ==> ScanChunks(b, f.pos, Format(|tracks|, rate, frameSize, formatRead)) == result
      invariant !more ==>
        found == result.DataAt? && (found ==> f.pos == result.start)
        && result.fmt == Format(|tracks|, rate, frameSize, formatRead)
      decreases more, if f.pos <= |b| then |b| - f.pos + 1 else 0
    {
      ghost var known := tracks;
      more, found, tracks, rate, frameSize, formatRead := NextChunk(f, tracks, rate, frameSize, formatRead);
      AppendedTransitive(tracks, known, tracks0);
    }
  }

  /** One pass of the chunk loop: read a chunk header and act on it. `more`
      is false when the loop ends, with `found` saying whether at a data
      chunk. */
  method NextChunk(f: File, tracks0: seq<Track>, rate0: word, frameSize0: nat, formatRead0: bool)
    returns (more: bool, found: bool, tracks: seq<Track>, rate: word, frameSize: nat, formatRead: bool)
    modifies f
    ensures f.bytes == old(f.bytes) && Appended(tracks, tracks0)
    ensures var r := ScanChunks(f.bytes, old(f.pos), Format(|tracks0|, rate0, frameSize0, formatRead0));
      if more then
        old(f.pos) + 8 <= f.pos && old(f.pos) + 8 <= |f.bytes|
        && r == ScanChunks(f.bytes, f.pos, Format(|tracks|, rate, frameSize, formatRead))
      else
        found == r.DataAt? && (found ==> f.pos == r.start) && r.fmt == Format(|tracks|, rate, frameSize, formatRead)
  {
    ghost var b, at, fmt := f.bytes, f.pos, Format(|tracks0|, rate0, frameSize0, formatRead0);
    tracks, rate, frameSize, formatRead := tracks0, rate0, frameSize0, formatRead0;
    var header := f.ReadBytes(8);
    if |header| != 8 {
      return false, false, tracks, rate, frameSize, formatRead;
    }
    assert header[..4] == b[at..at + 4] && header[4] == b[at + 4];
    ScanStep(b, at, fmt);
    var size := ChunkSizeAsRead(header[4]);
    if header[..4] == FMT {
      var fields := f.ReadBytes(16);
      if |fields| < 16 {
        return false, false, tracks, rate, frameSize, formatRead;
      }
      tracks := AddTracks(tracks, GetLE16(fields, 2));
      rate := RateOrDefault(GetLE32(fields, 4));
      frameSize := |tracks| * SAMPLE_SIZE;
      formatRead := true;
      assert fields == b[at + 8..at + 24];
      assert Format(|tracks|, rate, frameSize, formatRead) == ReadFormat(fields, fmt);
      var _ := f.SeekCur(size as int - 16);
      assert f.pos == at + 8 + size;
      return true, false, tracks, rate, frameSize, formatRead;
    } else if header[..4] == DATA {
      return false, true, tracks, rate, frameSize, formatRead;
    } else {
      var _ := f.SeekCur(size);
      assert f.pos == at + 8 + size;
      return true, false, tracks, rate, frameSize, formatRead;
    }
  }

  /** The track loop of the fmt chunk (multijack.cpp:594-595): a new track
      appended for each channel. */
  method AddTracks(tracks0: seq<Track>, channels: nat) returns (tracks: seq<Track>)
    ensures |tracks| == |tracks0| + channels && Appended(tracks, tracks0)
  {
    tracks := tracks0;
    for k := 0 to channels
      invariant |tracks| == |tracks0| + k && tracks[..|tracks0|] == tracks0
      invariant forall i :: |tracks0| <= i < |tracks| ==> tracks[i] == NewTrack
    {
      tracks := tracks + [NewTrack];
    }
  }

  /** The copy loop of the import step (multijack.cpp:629-649) for a payload
      that starts after byte 44: 512-byte pieces are read at `offRead` and
      written back at `offWrite`, 44 + (offRead - start), until a read
      returns nothing. The payload ends up at byte 44; the file keeps its
      length and its first 44 bytes. */
  method MovePayload(f: File, start: nat)
    requires HEADER_SIZE < start <= |f.bytes|
    modifies f
    ensures |f.bytes| == |old(f.bytes)| && f.pos == old(f.pos)
    ensures f.bytes[..HEADER_SIZE] == old(f.bytes[..HEADER_SIZE])
    ensures f.bytes[HEADER_SIZE..HEADER_SIZE + (|f.bytes| - start)] == old(f.bytes[start..])
  {
    ghost var b := f.bytes;
    var offRead, offWrite := start, HEADER_SIZE;
    var piece := f.PReadBytes(512, offRead);
    while |piece| > 0
      invariant start <= offRead <= |b| && offWrite == offRead - (start - HEADER_SIZE)
      invariant |f.bytes| == |b| && f.pos == old(f.pos)
      invariant f.bytes[..HEADER_SIZE] == b[..HEADER_SIZE]
      invariant f.bytes[HEADER_SIZE..offWrite] == b[start..offRead]
      invariant f.bytes[offRead..] == b[offRead..]
      invariant |piece| == Available(|b|, offRead, 512) && (|piece| > 0 ==> piece == b[offRead..offRead + |piece|])
      decreases |b| - offRead
    {
      ghost var before := f.bytes;
      f.PWrite(piece, offWrite);
      MoveStep(before, b, start, offRead, offWrite, piece);
      offWrite := offWrite + |piece|;
      offRead := offRead + |piece|;
      piece := f.PReadBytes(512, offRead);
    }
    assert offRead == |b| && b[start..offRead] == b[start..];
  }

  /** One pass of the copy loop keeps its invariant. */
  lemma {:induction false} MoveStep(s: seq<byte>, b: seq<byte>, start: nat, offRead: nat, offWrite: nat, data: seq<byte>)
    requires HEADER_SIZE <= offWrite <= offRead && offRead + |data| <= |b| && |s| == |b|
    requires start - HEADER_SIZE == offRead - offWrite && start <= offRead
    requires s[..HEADER_SIZE] == b[..HEADER_SIZE]
    requires s[HEADER_SIZE..offWrite] == b[start..offRead]
    requires s[offRead..] == b[offRead..]
    requires data == b[offRead..offRead + |data|]
    ensures var r := Overwrite(s, offWrite, data);
      |r| == |b| && r[..HEADER_SIZE] == b[..HEADER_SIZE]
      && r[HEADER_SIZE..offWrite + |data|] == b[start..offRead + |data|]
      && r[offRead + |data|..] == b[offRead + |data|..]
  {
    OverwriteInside(s, offWrite, data);
    var r := Overwrite(s, offWrite, data);
    assert r == s[..offWrite] + data + s[offWrite + |data|..];
    assert r[HEADER_SIZE..offWrite + |data|] == s[HEADER_SIZE..offWrite] + data;
    assert b[start..offRead + |data|] == b[start..offRead] + b[offRead..offRead + |data|];
    assert r[offRead + |data|..] == s[offRead + |data|..];
  }

  /** The file whose chunks OpenFile scans, and the rate in force when the
      scan begins: a file with the RIFF/WAVE signature as it is, at the rate
      already set; any other file replaced by four seconds of silence at
      JACK's rate (the default when JACK reports 0). */
  function Prepared(disk: seq<byte>, rate: word, jackRate: word): (seq<byte>, word)
  {
    if Signed(disk) then (disk, rate) else (FreshFile(RateOrDefault(jackRate)), RateOrDefault(jackRate))
  }

  /** What opening a file leaves: whether it succeeded, the file contents,
      the descriptor offset when it did, and the format read. */
  datatype Opened = Opened(ok: bool, bytes: seq<byte>, pos: nat, fmt: Format)

  /** OpenFile on `disk` with `fmt0` (tracks, rate, frame size) in force and
      JACK running at `jackRate`: the file is Prepared and its chunks scanned
      from byte 12. The open succeeds exactly when a data chunk follows a
      format of at least one channel; then the file is Loaded and the offset
      left at its end. Otherwise the file stays as scanned. */
  function Opening(disk: seq<byte>, fmt0: Format, jackRate: word): Opened
  {
    var b := Prepared(disk, fmt0.rate, jackRate);
    var r := ScanChunks(b.0, 12, fmt0.(rate := b.1, fmtSeen := false));
    if r.DataAt? && r.fmt.fmtSeen && r.fmt.frameSize > 0 then
      var loaded := Loaded(b.0, r.start, r.fmt.trackCount, r.fmt.rate);
      Opened(true, loaded, |loaded|, r.fmt)
    else Opened(false, b.0, 0, r.fmt)
  }

  /** A disk without the RIFF/WAVE signature opens as the silent file at
      JACK's rate: MAX_TRACKS more tracks, JACK's rate, and the offset at the
      end; with no tracks before, four seconds of frames. */
  lemma {:induction false} OpeningBlankDisk(disk: seq<byte>, fmt0: Format, jackRate: word)
    requires !Signed(disk) && 0 < jackRate < 0x1000_0000
    ensures var o := Opening(disk, fmt0, jackRate);
      o.ok && o.bytes == FreshFile(jackRate) && o.pos == |o.bytes|
      && o.fmt.trackCount == fmt0.trackCount + MAX_TRACKS && o.fmt.rate == jackRate
      && o.fmt.frameSize == o.fmt.trackCount * SAMPLE_SIZE
      && (fmt0.trackCount == 0 ==> (|o.bytes| - HEADER_SIZE) / o.fmt.frameSize == 4 * jackRate)
  {
    var g := fmt0.(rate := jackRate, fmtSeen := false);
    assert Prepared(disk, fmt0.rate, jackRate) == (FreshFile(jackRate), jackRate);
    FreshFileOpens(jackRate, g);
    var o := Opening(disk, fmt0, jackRate);
    if fmt0.trackCount == 0 {
      assert o.fmt.frameSize == MAX_TRACKS * SAMPLE_SIZE;
    }
  }

  /** Opening again the file that an open from no tracks accepted accepts
      it, leaves its bytes as they are and reads the same format, whatever
      rate and frame size are in force: a payload that was moved to byte 44
      stays there. */
  lemma {:induction false} OpeningIsStable(disk: seq<byte>, fmt0: Format, jackRate: word, fmt1: Format)
    requires fmt0.trackCount == 0 && fmt1.trackCount == 0
    requires Opening(disk, fmt0, jackRate).ok && Opening(disk, fmt0, jackRate).fmt.trackCount < TWO16
    ensures var o := Opening(disk, fmt0, jackRate);
      var p := Opening(o.bytes, fmt1, jackRate);
      p.ok && p.bytes == o.bytes && p.pos == o.pos && p.fmt == o.fmt
  {
    var o := Opening(disk, fmt0, jackRate);
    var b := Prepared(disk, fmt0.rate, jackRate);
    var g0 := fmt0.(rate := b.1, fmtSeen := false);
    var g1 := fmt1.(rate := fmt1.rate, fmtSeen := false);
    var r := ScanChunks(b.0, 12, g0);
    if !Signed(disk) {
      FreshFileSigned(RateOrDefault(jackRate));
    }
    ScanFormatInvariant(b.0, 12, g0);
    assert Consistent(r.fmt);
    if r.start == HEADER_SIZE {
      assert o.bytes == b.0;
      assert Prepared(o.bytes, fmt1.rate, jackRate) == (b.0, fmt1.rate);
      ScanSameCount(b.0, 12, g0, g1);
    } else {
      var tc, rate := r.fmt.trackCount, r.fmt.rate;
      assert o.bytes == Imported(b.0, r.start, tc, rate);
      ImportedReopens(b.0, r.start, tc, rate, g1);
      assert Prepared(o.bytes, fmt1.rate, jackRate) == (o.bytes, fmt1.rate);
      WordIsItsOwnReduction(rate);
      SmallCountIsItsOwnReduction(tc);
    }
  }

  /** A successful open reads a format that agrees with itself: the frame
      size is that of all tracks, the rate is not zero, there are at least
      as many tracks as before, the file holds at least the 44 header bytes
      and the offset is at its end. */
  lemma OpenedFormatConsistent(disk: seq<byte>, fmt0: Format, jackRate: word)
    ensures var o := Opening(disk, fmt0, jackRate);
      o.ok ==> (o.fmt.frameSize == o.fmt.trackCount * SAMPLE_SIZE && o.fmt.rate != 0
                && o.fmt.trackCount >= fmt0.trackCount && |o.bytes| >= HEADER_SIZE && o.pos == |o.bytes|)
  {
    var b := Prepared(disk, fmt0.rate, jackRate);
    ScanFormatInvariant(b.0, 12, fmt0.(rate := b.1, fmtSeen := false));
  }

  /** A channel count below 2^16 survives the 16-bit header field. */
  lemma SmallCountIsItsOwnReduction(n: nat)
    requires n < TWO16
    ensures n % TWO16 == n
  {
  }

  /** OpenFile's work on the file it opens (multijack.cpp:550-661), on a
      fresh descriptor. */
  method OpenWave(disk: seq<byte>, rate0: word, jackRate: word, tracks0: seq<Track>, frameSize0: nat)
    returns (f: File, ok: bool, tracks: seq<Track>, rate: word, frameSize: nat)
    ensures fresh(f) && Appended(tracks, tracks0) && (ok ==> frameSize > 0)
    ensures var o := Opening(disk, Format(|tracks0|, rate0, frameSize0, false), jackRate);
      ok == o.ok && f.bytes == o.bytes && (ok ==> f.pos == o.pos)
      && o.fmt == Format(|tracks|, rate, frameSize, o.fmt.fmtSeen)
  {
    f := new File(disk);
    var rate1 := PrepareFile(f, rate0, jackRate);
    var found, formatRead;
    found, formatRead, tracks, rate, frameSize := ScanForData(f, tracks0, rate1, frameSize0);
    if !found || !formatRead || frameSize == 0 {
      ok := false;
      return;
    }
    var _, _ := LoadPayload(f, |tracks|, rate);
    ok := true;
  }

  /** The opening steps of OpenFile (multijack.cpp:557-571) on a file just
      opened: the 12-byte RIFF/WAVE signature is read; a file without it is
      replaced by four seconds of silence on MAX_TRACKS tracks at JACK's rate
      (the default when JACK reports 0), which becomes the rate in force.
      Either way the offset ends at byte 12, where the chunks begin. */
  method PrepareFile(f: File, rate: word, jackRate: word) returns (rate0: word)
    requires f.pos == 0
    modifies f
    ensures (f.bytes, rate0) == Prepared(old(f.bytes), rate, jackRate)
    ensures f.pos == 12
  {
    var signature := f.ReadBytes(12);
    if |signature| < 12 || signature[..4] != RIFF || signature[8..12] != WAVE {
      rate0 := RateOrDefault(jackRate);
      PutSilence(f, rate0);
    } else {
      assert signature[..4] == old(f.bytes)[..4] && signature[8..12] == old(f.bytes)[8..12];
      rate0 := rate;
    }
  }

  /** The data chunk step of OpenFile (multijack.cpp:613-661) with the offset
      at the payload: a payload anywhere but byte 44 is moved there under a
      fresh minimal header (before the header is written when it starts
      earlier, see README); the payload then runs from 44 to the end. */
  method LoadPayload(f: File, channels: int, rate: word) returns (start: nat, end: nat)
    requires f.pos <= |f.bytes|
    modifies f
    ensures f.bytes == Loaded(old(f.bytes), old(f.pos), channels, rate)
    ensures start == HEADER_SIZE && end == |f.bytes| && f.pos == end
  {
    var at := f.SeekCur(0);
    var _ := f.SeekEnd(0);
    if at != HEADER_SIZE {
      if at > HEADER_SIZE {
        PutImport(f, at, channels, rate);
      } else {
        PutImportEarly(f, at, channels, rate);
      }
    }
    start := HEADER_SIZE;
    var e := f.SeekEnd(0);
    end := e;
  }

  /** The two writes of WriteHeader (multijack.cpp:697-713) on an open
      file: the 36 bytes up to the fmt chunk's body end at 0, then the data
      chunk header at 36. */
  method PutHeader(f: File, waveSize: int, channels: int, rate: int)
    modifies f
    ensures f.bytes == Overwrite(old(f.bytes), 0, HeaderBytes(waveSize, channels, rate)) && f.pos == old(f.pos)
  {
    var h := new byte[36];
    FillHeader(h, waveSize, channels, rate);
    ghost var first := h[..];
    f.PWrite(h[..], 0);
    h[0], h[1], h[2], h[3] := 'd' as int, 'a' as int, 't' as int, 'a' as int;
    assert h[..4] == DATA;
    StoreLE32(h, 4, waveSize);
    ghost var second := h[..8];
    f.PWrite(h[..8], 36);
    HeaderWrites(old(f.bytes), waveSize, channels, rate, first, second);
  }

  /** The file work of the silent file (multijack.cpp:565-571) at rate
      `rate`: the header for four seconds of MAX_TRACKS tracks, the zeroed
      payload, the cut after it, and the offset back at byte 12. */
  method PutSilence(f: File, rate: word)
    modifies f
    ensures f.bytes == FreshFile(rate) && f.pos == 12
  {
    var size := Uint32(rate * MAX_TRACKS) * SAMPLE_SIZE * 4;
    ghost var s := f.bytes;
    PutHeader(f, size, MAX_TRACKS, rate);
    f.PWrite(Zeros(size), HEADER_SIZE);
    f.Truncate(HEADER_SIZE + size);
    HeaderThenData(s, HeaderBytes(size, MAX_TRACKS, rate), Zeros(size));
    var _ := f.SeekSet(12);
  }

  /** The file work of the import step (multijack.cpp:626-651) for a payload
      that starts after byte 44: the header for `channels` tracks at `rate`,
      the payload moved forward to byte 44, the file cut after it. */
  method PutImport(f: File, start: nat, channels: int, rate: int)
    requires HEADER_SIZE < start <= |f.bytes|
    modifies f
    ensures f.bytes == Imported(old(f.bytes), start, channels, rate) && f.pos == old(f.pos)
  {
    ghost var b := f.bytes;
    var size := |f.bytes| - start;
    ghost var header := HeaderBytes(size, channels, rate);
    PutHeader(f, size, channels, rate);
    OverwriteInside(b, 0, header);
    assert f.bytes[start..] == b[start..];
    assert f.bytes[..HEADER_SIZE] == header;
    MovePayload(f, start);
    ImportedFrom(f.bytes, b, start, channels, rate);
    f.Truncate(HEADER_SIZE + size);
  }

  /** The corrected import for a payload that starts before byte 44: the
      payload is read whole before the header is written over its first
      bytes, then written back at 44 and the file cut after it. */
  method PutImportEarly(f: File, start: nat, channels: int, rate: int)
    requires start < HEADER_SIZE && start <= |f.bytes|
    modifies f
    ensures f.bytes == Imported(old(f.bytes), start, channels, rate) && f.pos == old(f.pos)
  {
    ghost var b := f.bytes;
    var size := |f.bytes| - start;
    var payload := f.PReadBytes(size, start);
    assert payload == b[start..];
    PutHeader(f, size, channels, rate);
    f.PWrite(payload, HEADER_SIZE);
    f.Truncate(HEADER_SIZE + size);
    HeaderThenData(b, HeaderBytes(size, channels, rate), payload);
  }

  /** Bytes that begin with the import header and the payload, cut after the
      payload, are the imported file. */
  lemma ImportedFrom(t: seq<byte>, b: seq<byte>, start: nat, channels: int, rate: int)
    requires start <= |b| && HEADER_SIZE + (|b| - start) <= |t|
    requires t[..HEADER_SIZE] == HeaderBytes(|b| - start, channels, rate)
    requires t[HEADER_SIZE..HEADER_SIZE + (|b| - start)] == b[start..]
    ensures Truncated(t, HEADER_SIZE + (|b| - start)) == Imported(b, start, channels, rate)
  {
    var n := HEADER_SIZE + (|b| - start);
    assert t[..n] == t[..HEADER_SIZE] + t[HEADER_SIZE..n];
  }

  /** The first 36 header bytes, as WriteHeader fills them in with
      SetLE16 and SetLE32 (multijack.cpp:699-709). */
  method FillHeader(h: array<byte>, waveSize: int, channels: int, rate: int)
    requires h.Length == 36
    modifies h
    ensures h[..] == RIFF + LE32(waveSize + 36) + WAVE + FMT + LE32(16) + LE16(FORMAT_IEEE_FLOAT)
      + LE16(channels) + LE32(rate) + LE32(rate * channels * SAMPLE_SIZE)
      + LE16(channels * SAMPLE_SIZE) + LE16(SAMPLE_SIZE * 8)
  {
    h[0], h[1], h[2], h[3] := 'R' as int, 'I' as int, 'F' as int, 'F' as int;
    assert h[..4] == RIFF;
    StoreLE32(h, 4, waveSize + 36);
    h[8], h[9], h[10], h[11] := 'W' as int, 'A' as int, 'V' as int, 'E' as int;
    h[12], h[13], h[14], h[15] := 'f' as int, 'm' as int, 't' as int, ' ' as int;
    assert h[..16] == h[..8] + WAVE + FMT;
    FillFormat(h, channels, rate);
    assert h[..] == h[..36];
  }

  /** The fmt chunk's size and body after its tag (multijack.cpp:703-709). */
  method FillFormat(h: array<byte>, channels: int, rate: int)
    requires h.Length == 36
    modifies h
    ensures h[..36] == old(h[..16]) + LE32(16) + LE16(FORMAT_IEEE_FLOAT)
      + LE16(channels) + LE32(rate) + LE32(rate * channels * SAMPLE_SIZE)
      + LE16(channels * SAMPLE_SIZE) + LE16(SAMPLE_SIZE * 8)
  {
    StoreLE32(h, 16, 16);
    StoreLE16(h, 20, FORMAT_IEEE_FLOAT);
    StoreLE16(h, 22, channels);
    StoreLE32(h, 24, rate);
    StoreLE32(h, 28, rate * channels * SAMPLE_SIZE);
    StoreLE16(h, 32, channels * SAMPLE_SIZE);
    StoreLE16(h, 34, SAMPLE_SIZE * 8);
  }

  /** A 4-byte buffer filled by SetLE32 and written with pwrite at `at`. */
  method PWriteLE32(f: File, x: int, at: nat)
    modifies f
    ensures f.bytes == Overwrite(old(f.bytes), at, LE32(x)) && f.pos == old(f.pos)
  {
    var buf := new byte[4];
    StoreLE32(buf, 0, x);
    assert buf[..] == LE32(x);
    f.PWrite(buf[..], at);
  }

  /** SetLE32 at the end of a filled prefix extends it by LE32(x). */
  method StoreLE32(h: array<byte>, at: nat, x: int)
    requires at + 4 <= h.Length
    modifies h
    ensures h[..at + 4] == old(h[..at]) + LE32(x)
  {
    SetLE32(h, at, x);
    LE32Stored(h[..], at, x);
    assert h[..at] == old(h[..at]);
  }

  /** SetLE16 at the end of a filled prefix extends it by LE16(x). */
  method StoreLE16(h: array<byte>, at: nat, x: int)
    requires at + 2 <= h.Length
    modifies h
    ensures h[..at + 2] == old(h[..at]) + LE16(x)
  {
    SetLE16(h, at, x);
    LE16Stored(h[..], at, x);
    assert h[..at] == old(h[..at]);
  }

  /** The four bytes SetLE32 stored are LE32 of the value. */
  lemma {:induction false} LE32Stored(s: seq<byte>, at: nat, x: int)
    requires at + 4 <= |s|
    requires s[at] == ByteOf(x, 0) && s[at + 1] == ByteOf(x, 1)
    requires s[at + 2] == ByteOf(x, 2) && s[at + 3] == ByteOf(x, 3)
    ensures s[at..at + 4] == LE32(x)
  {
  }

  /** The two bytes SetLE16 stored are LE16 of the value. */
  lemma {:induction false} LE16Stored(s: seq<byte>, at: nat, x: int)
    requires at + 2 <= |s|
    requires s[at] == ByteOf(x, 0) && s[at + 1] == ByteOf(x, 1)
    ensures s[at..at + 2] == LE16(x)
  {
  }

  /** The two pieces WriteHeader writes make up HeaderBytes. */
  lemma {:induction false} HeaderPieces(waveSize: int, channels: int, rate: int, first: seq<byte>, second: seq<byte>)
    requires first == RIFF + LE32(waveSize + 36) + WAVE + FMT + LE32(16) + LE16(FORMAT_IEEE_FLOAT)
      + LE16(channels) + LE32(rate) + LE32(rate * channels * SAMPLE_SIZE)
      + LE16(channels * SAMPLE_SIZE) + LE16(SAMPLE_SIZE * 8)
    requires second == DATA + LE32(waveSize)
    ensures first + second == HeaderBytes(waveSize, channels, rate)
  {
  }

  /** The two header writes land as one write of the whole header. */
  lemma HeaderWrites(s: seq<byte>, waveSize: int, channels: int, rate: int, first: seq<byte>, second: seq<byte>)
    requires first == RIFF + LE32(waveSize + 36) + WAVE + FMT + LE32(16) + LE16(FORMAT_IEEE_FLOAT)
      + LE16(channels) + LE32(rate) + LE32(rate * channels * SAMPLE_SIZE)
      + LE16(channels * SAMPLE_SIZE) + LE16(SAMPLE_SIZE * 8)
    requires second == DATA + LE32(waveSize)
    ensures Overwrite(Overwrite(s, 0, first), 36, second) == Overwrite(s, 0, HeaderBytes(waveSize, channels, rate))
  {
    HeaderPieces(waveSize, channels, rate, first, second);
    OverwriteAdjacent(s, 0, first, second);
  }
}
