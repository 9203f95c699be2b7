# multijack engine model

multijack is a tape-style multitrack recorder that runs as a JACK client. A
project is one interleaved multichannel WAVE file of 32-bit float samples,
one mono track per channel, plus a `.cfg` text file. The `.cfg` file holds
each track's monitor level, its two leg mutes and the head position.

This Dafny project models the engine behind the terminal interface:

- the per-track monitor gain (`Track::Mix`);
- the little-endian byte helpers and the 44-byte RIFF WAVE header;
- opening a project file: the silent file for a file without a signature,
  the chunk scan and the import of a payload that does not start at byte 44;
- the audio callback `OnJackProcess`: the transport state machine, the
  faded monitor mix, the end of the media and the recording path `Record`;
- the keyboard controls of `HandleControl`, `SetPlayHead` and the JACK sync
  and latency callbacks;
- loading and saving the `.cfg` file, with a proof that saving and then
  loading gives back every level, every mute and the head position.

Modules:

- `Tracks`: the track record and `Mix`.
- `Bytes`: bytes, 32-bit words, the LE16/LE32 encodings, `SetLE16`/`SetLE32`.
- `Samples`: the binary32 value of a sample.
- `Files`: the WAVE file behind one POSIX descriptor. It is a class whose
  contents are a `seq` of bytes and whose offset is a field. read, pread,
  pwrite, lseek and ftruncate keep POSIX semantics; a hole reads as zeros.
- `Wave`: the header layout, the chunk scan, the silent file and the import.
- `Transport`: the deck state (transport, head, last frame) one period at a
  time, and the fades.
- `Controls` and `Keys`: the keyboard controls as functions of the globals.
- `Recording`: what `Record` does to the frames it rewrites.
- `Config`: the `.cfg` writer and reader, and the round trip between them.
- `Multijack`: the class `Recorder`, whose fields are the program's globals.
  Its methods run the loops of the source in imperative form.
- `Findings`: three defects of `OpenFile`, as written and as corrected.

Two behaviours of the code worth stating outright:

- Playback that comes within two periods of the end stops in two periods.
  STOP set at multijack.cpp:45-46 becomes STOPPING at the end of the same
  callback (multijack.cpp:69-75), and STOPPING becomes STOPPED in the next
  callback.
- A file without a RIFF/WAVE signature is replaced by silence on
  MAX_TRACKS = 16 channels (multijack.cpp:565-566).

## Model

| member | source | states |
|---|---|---|
| Tracks.MixSilentWhenBothLegsMuted | track.h:21-22 | a track with both legs muted outputs silence, whatever its level or sample |
| Tracks.MixSilentWhileRecording | track.h:21-22 | a recording track outputs silence, whatever its level and mutes |
| Tracks.MixSilentAtZeroLevel | track.h:21-22 | a track at level 0 outputs silence |
| Tracks.MixScalesByLevel | track.h:23-24 | otherwise the output is level × v / 100, and it is zero exactly when the sample is zero |
| Tracks.MixUnityAtFullLevel | track.h:23-24 | at level 100 an unsilenced track passes its sample unchanged |
| Tracks.MixOneLegMutedStillAudible | track.h:21-24 | muting only one leg does not silence a track at a non-zero level |
| Tracks.MixAttenuates | track.h:19-25 | with a level in 0..100 the output is never louder than the input and keeps its sign |
| Bytes.Uint32 | multijack.cpp:582 | the uint32_t conversion: congruent to its argument modulo 2^32 and the identity on 0..2^32-1 |
| Bytes.Int32 | multijack.cpp:505-520 | the int conversion: inside [-2^31, 2^31), congruent modulo 2^32 and the identity in range |
| Bytes.LE16 | multijack.cpp:717-721 | two bytes whose little-endian value is the argument modulo 2^16 |
| Bytes.LE32 | multijack.cpp:724-730 | four bytes whose little-endian value is the argument modulo 2^32 |
| Bytes.LE16RoundTrip | multijack.cpp:717-721 | decoding what SetLE16 stores gives back the value modulo 2^16 |
| Bytes.LE32RoundTrip | multijack.cpp:724-730 | decoding what SetLE32 stores gives back the value modulo 2^32 |
| Bytes.GetLE32Encodes | multijack.cpp:724-730 | encoding a word read from four bytes reproduces those bytes (the other direction of the round trip) |
| Bytes.GetLE32OfBytes | multijack.cpp:724-730 | the four bytes of x, wherever they are stored, decode to x modulo 2^32 |
| Bytes.Words | multijack.cpp:950 | the count words read little-endian from byte at: word i is the LE32 value at at + 4i |
| Bytes.WordBytes | multijack.cpp:960 | the bytes a word buffer is written as: byte j is byte j mod 4 of word j / 4 |
| Bytes.WordBytesOfWords | multijack.cpp:950-960 | reading bytes as words and writing the words back gives the same bytes |
| Bytes.WordBytesSlot | multijack.cpp:956-960 | word i of a written buffer decodes back from bytes [4i, 4i + 4) |
| Bytes.SetLE16 | multijack.cpp:717-721 | stores the low two bytes of x at at and changes no other byte of the buffer |
| Bytes.SetLE32 | multijack.cpp:724-730 | stores the four bytes of x at at and changes no other byte of the buffer |
| Samples.ZeroBytesAreSilence | multijack.cpp:567-569 | four zero bytes (silence, a file hole) are the sample 0.0 |
| Samples.Float32One | multijack.cpp:57 | the bit pattern 0x3F800000 is the sample 1.0, so the exponent bias and hidden bit are right |
| Transport.MixState | multijack.cpp:45-46 | the state in force while mixing is STOP exactly when a stop was requested or playback (not recording) is within 2n frames of the end; otherwise it is unchanged |
| Transport.Served | multijack.cpp:69-75 | after the mix a requested stop or start is served (never left pending); other states are kept |
| Transport.StoppedIsIdle | multijack.cpp:29-30 | a period in STOPPED changes neither the transport, nor the head, nor the length |
| Transport.StoppingSettles | multijack.cpp:31-44 | a period in STOPPING ends in STOPPED with the head and length kept |
| Transport.HeadAdvance | multijack.cpp:67-88 | the head advances by exactly the frames read, plus n and the length by n when recording reaches the end |
| Transport.RequestsServedInOnePeriod | multijack.cpp:45-92 | STOP becomes STOPPING in one period; START becomes ROLLING unless the end of the media interferes |
| Transport.EndOfMediaStopsInTwoPeriods | multijack.cpp:45-92 | playback within 2n frames of the end is STOPPING after one period and STOPPED after the next, with the length unchanged |
| Transport.PlaybackStaysInside | multijack.cpp:45-92 | while playing, a period that reads no more frames than remain keeps the head inside [0, lastFrame] and the length unchanged |
| Transport.RecordingNeverRunsOut | multijack.cpp:79-88 | while recording the transport stays ROLLING and the tape grows by n frames whenever the head reaches the end |
| Transport.FadeEnds | multijack.cpp:58-63 | the fade-in starts in silence, and the fade-out and an unfaded period start at full level |
| Transport.FadeBounded | multijack.cpp:58-63 | every faded frame lies between silence and the unfaded value |
| Controls.SelectionStaysOnTracks | multijack.cpp:352-361 | KEY_DOWN and KEY_UP keep the selection on an existing track and move it by one, stopping at either end |
| Controls.LevelKeysStayInRange | multijack.cpp:362-379 | the level keys keep a level in 0..100, and each moves it by one exactly when that stays in range |
| Controls.LevelKeysNeverLeaveFurther | multijack.cpp:362-379 | a loaded level outside 0..100 is never moved further out, only back towards the range |
| Controls.LevelUpReachesFull | multijack.cpp:362-366 | k presses of KEY_RIGHT add k up to the ceiling of 100 |
| Controls.ToggleMuteBothAgrees | multijack.cpp:436-449 | 'm' leaves both legs equal: unmuted when both were muted, muted otherwise, which silences the track |
| Controls.ToggleMuteTwice | multijack.cpp:380-405 | 'l' or 'r' pressed twice restores the track |
| Controls.MuteAll | multijack.cpp:450-461 | 'M' sets both legs of every track to the same mute and changes nothing else |
| Controls.MuteAllTwice | multijack.cpp:450-461 | 'M' from an unmuted selection silences every track, and pressing it again unmutes them all |
| Controls.ArmEffect | multijack.cpp:406-435 | arming ends on the selected track unless it was already armed (then -1); only the selected and the previously armed track change flags; levels and mutes are untouched |
| Controls.ArmAKeepsRecordingArmed | multijack.cpp:406-420 | after 'a' every recording track is still armed on a leg |
| Controls.ArmBKeepsRecordingArmed | multijack.cpp:421-435 | after 'b' every recording track is still armed on a leg |
| Controls.ArmTwiceDisarms | multijack.cpp:406-435 | arming and then arming the same track again leaves the leg unarmed and both tracks not recording |
| Controls.ClearRecordingSilencesNone | multijack.cpp:477-481 | when only armed tracks record, clearing the armed flags leaves every track not recording and otherwise as it was |
| Controls.PlayHeadClamped | multijack.cpp:750-763 | SetPlayHead's head lies in [0, lastFrame], equals an in-range request, and is 0 or lastFrame otherwise; clamping is idempotent |
| Controls.SeekMovesBySeconds | multijack.cpp:505-520 | within the range of an int a seek key asks for the head moved by its seconds times the sample rate |
| Controls.SyncStopSettles | multijack.cpp:100-120 | a stop from JACK's transport is STOPPING after one period and STOPPED after the next |
| Keys.ControlKeepsArms | multijack.cpp:352-520 | no key adds or removes tracks, and every key keeps the arms in range and every recording track armed |
| Keys.ControlKeepsLevels | multijack.cpp:362-379 | every key keeps all levels in 0..100, and only the level keys change a level |
| Keys.LevelsUnchanged | multijack.cpp:352-520 | a key other than the four level keys leaves every track's level as it was |
| Keys.ControlKeepsSelection | multijack.cpp:352-379 | with at least one track, the selection stays on a track whatever key is pressed |
| Keys.StopKeyEndsRecording | multijack.cpp:474-483 | the space bar on a rolling deck requests STOP, disables recording, clears every recording flag, keeps the head and takes the length from the file |
| Keys.StartKeyRewinds | multijack.cpp:466-473 | the space bar on a stopped deck requests START, rewinds to 0 when playback had reached the end, keeps a head inside the tape that fits an int, and rewinds to 0 a head of 2^31 or more, which the int parameter of SetPlayHead turns negative |
| Keys.NoShuttleWhileRecording | multijack.cpp:497-520 | while recording and rolling no key other than the space bar moves the head or the file offset |
| Recording.StampedSample | multijack.cpp:953-959 | after Record's frame loop, slot recB of frame f holds input B, slot recA (when not recB) holds input A, and every other slot keeps its sample |
| Recording.StampedSlot | multijack.cpp:953-959 | after m frames of the loop every slot holds its StampedValue: stamped frames as above, later frames untouched |
| Recording.StampedUnarmed | multijack.cpp:953-959 | with no leg armed the frame loop changes nothing |
| Recording.RecordedSlot | multijack.cpp:949-961 | in the rewritten file block, armed slots decode to the inputs (B winning) and every other slot keeps its four bytes |
| Recording.RecordedUnarmed | multijack.cpp:949-961 | with no leg armed the rewritten block is the block that was read |
| Recording.SampleIndex | multijack.cpp:956-958 | the buffer index of track c in frame f is f × tracks + c and lies inside the n-frame block |
| Wave.HeaderBytes | multijack.cpp:693-714 | the minimal header is exactly 44 bytes |
| Wave.HeaderFields | multijack.cpp:693-714 | RIFF@0, WAVE@8, fmt @12, data@36; LE32 waveSize+36@4, 16@16, waveSize@40; LE16 3@20, channels@22, LE32 rate@24, rate×channels×4@28, LE16 channels×4@32, 32@34, each modulo its width |
| Wave.ChunkSizeAsRead | multijack.cpp:582 | the chunk size as read: byte 4 alone, as a sign-extended char; below 128 it is the byte, otherwise at least 2^32 - 128 |
| Wave.ReadFormat | multijack.cpp:585-611 | a fmt body adds one track per channel, sets the frame size to 4 bytes per track and the rate, 0 meaning 44100 |
| Wave.RateOrDefault | multijack.cpp:601-603 | a rate of 0 becomes DEFAULT_SAMPLERATE and any other rate is kept |
| Wave.ScanChunks | multijack.cpp:578-665 | a found payload starts after an 8-byte chunk header that lies inside the file |
| Wave.ScanStep | multijack.cpp:578-665 | one chunk: fmt reads its body (or ends the scan when the body is short), data stops at the byte after its header, any other chunk is skipped by its size as read |
| Wave.ScanFindsDataHeader | multijack.cpp:613-616 | a found payload starts right after a "data" chunk tag and size inside the file |
| Wave.ScanFormatInvariant | multijack.cpp:578-665 | the scan never removes tracks, keeps frame size = 4 × tracks, and leaves the format alone when no fmt chunk is read |
| Wave.LargeChunkSizeEndsScan | multijack.cpp:578-665 | an unknown chunk whose size byte is 0x80 or more makes the scan skip past the end, so no data chunk is found |
| Wave.ScanMinimalHeader | multijack.cpp:578-616 | a file starting with WriteHeader's bytes is scanned to its fmt body and finds the payload at byte 44 with its channels and rate |
| Wave.FreshFile | multijack.cpp:559-571 | the silent file is 44 bytes of header plus rate × 16 × 4 × 4 bytes of payload |
| Wave.FreshPayloadFrames | multijack.cpp:565 | the silent payload is exactly four seconds of 16-track frames |
| Wave.FreshFileOpens | multijack.cpp:559-616 | the silent file scans to its payload at byte 44 with 16 more tracks at the given rate, and four seconds of frames |
| Wave.FreshFileSigned | multijack.cpp:559-566 | the silent file starts with RIFF and WAVE, so it is not replaced again on the next open |
| Wave.Imported | multijack.cpp:619-651 | the imported file is exactly 44 bytes longer than the payload |
| Wave.Loaded | multijack.cpp:613-661 | the loaded file keeps at least a header unless the payload already started at 44 |
| Wave.ImportedReopens | multijack.cpp:619-651 | an imported file has the signature and reopens with its payload at byte 44 and the same channels and rate |
| Wave.ScanSameCount | multijack.cpp:594-604 | once a fmt chunk is read, the rate and frame size in force before it no longer matter |
| Config.Digits | multijack.cpp:868 | the decimal digits printf writes: at least one character, all digits |
| Config.DigitsValue | multijack.cpp:868 | the digits of n read back as n |
| Config.Atoi | multijack.cpp:799 | atoi's result is always an int: strtol clamps to a long, then the value is cut to 32 bits |
| Config.AtoiOfDecimal | multijack.cpp:799 | atoi reads back what %d wrote for any int, whatever non-digit follows |
| Config.StrtolOfDecimal | multijack.cpp:820 | strtol reads back what %d or %ld wrote, whatever non-digit follows |
| Config.PieceLength | multijack.cpp:788-789 | fgets returns between 1 and 255 characters |
| Config.PiecesOfLines | multijack.cpp:789 | fgets gives back, one by one, the whole lines the text was written as |
| Config.ApplyLine | multijack.cpp:791-820 | reading one line never changes the number of tracks |
| Config.ApplyLinesAppend | multijack.cpp:788-822 | reading two runs of lines is reading the first and then the second from where it left off |
| Config.ApplyLinesKeepsRecording | multijack.cpp:791-820 | reading a configuration keeps the number of tracks and never changes a recording flag |
| Config.PreambleSkipped | multijack.cpp:863-864 | the two comment lines and the blank line SaveProject writes are whole lines that change nothing |
| Config.TrackLine | multijack.cpp:793-809 | a line "NNx=value" for track NN sets that track's level or one leg's mute and nothing else |
| Config.LevelLineRead | multijack.cpp:793-800 | the level line written for track i sets track i's level to that level |
| Config.MuteLineRead | multijack.cpp:793-808 | the mute line written for a leg of track i sets that leg's mute back to its saved value |
| Config.TrackLinesRestore | multijack.cpp:788-822 | the three lines of a saved track restore its level and both mutes |
| Config.TracksLinesRestore | multijack.cpp:788-822 | the lines of the first k saved tracks restore their levels and mutes and leave the other tracks and the head alone |
| Config.PositionLineRead | multijack.cpp:819-820 | the Pos= line is whole and sets the head position to the saved value |
| Config.Restored | multijack.cpp:788-822 | keeps the track count |
| Config.RestoredAt | multijack.cpp:788-822 | the first k tracks take their level and mutes from the saved tracks and keep their recording flag; the rest are unchanged |
| Config.ConfigRoundTrip | multijack.cpp:858-882 | saving a project (the writer here, the reader at multijack.cpp:788-822) and loading it again gives every track back its level and both mutes and the head its position, with recording flags kept |
| Multijack.RiffSizePatched | multijack.cpp:738-739 | after CloseFile's patch bytes 4-7 decode to the file length minus 8, and no other byte changes |
| Multijack.PeriodFrames | multijack.cpp:48-52 | the whole frames one period reads: at most n, none without a file or tracks, and never more than the bytes available |
| Multijack.WholeFrames | multijack.cpp:52 | the whole frames in k bytes fit in those bytes |
| Multijack.Extended | multijack.cpp:84-88 | the extended file keeps every old byte and appends n × frameSize zero bytes (as uint32, written as a hole plus one byte) |
| Multijack.RewriteAt | multijack.cpp:949 | the block Record rewrites starts recordOffset frames behind the head |
| Multijack.NewTracks | multijack.cpp:594-595 | k tracks, each in the state a new Track starts in |
| Multijack.AppendedToNone | multijack.cpp:594-595 | tracks appended to an empty list are all new tracks |
| Multijack.OpeningBlankDisk | multijack.cpp:559-571 | a disk without the signature opens as the silent file at JACK's rate with 16 more tracks and the offset at the end; from no tracks that is four seconds of frames |
| Multijack.OpeningIsStable | multijack.cpp:540-669 | opening again a file that an open accepted accepts it unchanged, with the same format |
| Multijack.OpenedFormatConsistent | multijack.cpp:594-604 | a successful open has frameSize = 4 × tracks, a non-zero rate, no fewer tracks than before, a full header, and the offset at the end |
| Multijack.Recorder.constructor | multijack.cpp:168-178 | the initial globals: no file, no tracks, STOPPED, nothing armed, every number 0 |
| Multijack.Recorder.OpenFile | multijack.cpp:540-669 | does nothing if a file is open or open() fails; otherwise the file, tracks, rate and frame size become those of Opening, and on success the data bounds are [44, end) and the length is the whole frames |
| Multijack.Recorder.Install | multijack.cpp:616-660 | sets the descriptor, tracks and format; on success the data starts at 44, ends at the file's end, and the length is the whole frames between |
| Multijack.Recorder.WriteHeader | multijack.cpp:693-714 | with a file open its first 44 bytes become HeaderBytes and nothing else changes, the offset included |
| Multijack.Recorder.CloseFile | multijack.cpp:732-748 | an open file gets LE32(endOfData - 8) at byte 4; the tracks are dropped, the descriptor closed, and a rolling transport asked to stop |
| Multijack.Recorder.UpdateLength | multijack.cpp:887-891 | the length becomes the whole frames between the data bounds, with C's truncating division; nothing else changes |
| Multijack.Recorder.Process | multijack.cpp:26-98 | one callback: the deck moves as Transport.Period says; STOPPED leaves the outputs alone, STOPPING zeroes n frames; otherwise each read frame is the faded Mix of its sample; the file is extended at the end while recording and rewritten by Record |
| Multijack.Recorder.Roll | multijack.cpp:45-97 | an active period: the faded mix, the head and end-of-media update, the extension and the recording, each as Process states |
| Multijack.Recorder.Play | multijack.cpp:45-75 | reads the period's whole frames, mixes them in the state MixState gives, moves the head by the frames read and serves the request |
| Multijack.Recorder.NearEnd | multijack.cpp:45-46 | sets the transport to MixState and changes nothing else |
| Multijack.Recorder.Serve | multijack.cpp:67-75 | moves the head by the frames read and serves a requested stop or start |
| Multijack.Recorder.EndOfMedia | multijack.cpp:79-92 | before the end nothing changes; at the end playback becomes STOPPING, and recording grows head and length by n and the file by n frames of zeros with the offset at the new end |
| Multijack.Recorder.ReadAndMix | multijack.cpp:48-68 | reads the period and sets output f of track c to the faded Mix of the sample at frame f, track c; later frames keep their values |
| Multijack.Recorder.Extend | multijack.cpp:84-88 | an open file is extended with n frames of zeros, the offset and endOfData at the new end |
| Multijack.Recorder.MixFrames | multijack.cpp:52-66 | output f of track c becomes the faded Mix of read-buffer sample f × tracks + c for every read frame |
| Multijack.Recorder.Record | multijack.cpp:930-962 | returns false unless rolling, recording, open and armed, or on a short read; true otherwise; the file changes only when the block is read whole, and then only in the armed slots |
| Multijack.Recorder.Stamp | multijack.cpp:953-959 | the read buffer's n frames become Stamped: input B in slot recB, input A in slot recA, other slots kept |
| Multijack.Recorder.HandleControl | multijack.cpp:352-520 | the globals become Control of the key; the file offset moves to the head exactly when the key's SetPlayHead goes through |
| Multijack.Recorder.SelectionKey | multijack.cpp:352-379 | the selection and level keys act as Control says |
| Multijack.Recorder.MuteKey | multijack.cpp:380-461 | the mute keys act as Control says |
| Multijack.Recorder.ArmKey | multijack.cpp:406-435 | the arm keys act as Control says |
| Multijack.Recorder.TransportKey | multijack.cpp:462-496 | the space bar and 'G' act as Control says, with the offset set by the start's SetPlayHead, which receives the head cut to an int |
| Multijack.Recorder.StartStopKey | multijack.cpp:462-485 | the space bar acts as Control says, the start handing SetPlayHead the head cut to an int |
| Multijack.Recorder.StartKey | multijack.cpp:466-473 | requests START, rewinds a finished playback to 0, and sets the head from its int conversion, clamped to the tape, seeking the file to it |
| Multijack.Recorder.StopKey | multijack.cpp:474-483 | requests STOP, disables recording, clears the armed tracks' flags and updates the length |
| Multijack.Recorder.RecordModeKey | multijack.cpp:486-496 | 'G' toggles recording, clearing the armed tracks' flags when it disables it |
| Multijack.Recorder.SeekKey | multijack.cpp:497-520 | HOME, END and the seek keys act as Control says |
| Multijack.Recorder.MuteEvery | multijack.cpp:450-461 | every track is muted on both legs, or unmuted when the selected track's A leg was muted |
| Multijack.Recorder.StopRecording | multijack.cpp:477-481 | the armed tracks' recording flags are cleared and nothing else changes |
| Multijack.Recorder.OnLatency | multijack.cpp:142-151 | one latency is set and the record offset becomes the 32-bit sum of both |
| Multijack.Recorder.OnSync | multijack.cpp:100-120 | the transport follows JACK's state, and a JACK stop also moves the head to JACK's frame |
| Multijack.Recorder.SetPlayHead | multijack.cpp:750-763 | nothing changes while recording and rolling; otherwise the head is clamped to [0, lastFrame] and the file offset set to start + head × frameSize |
| Multijack.Recorder.LoadConfig | multijack.cpp:786-822 | the tracks and head become those ApplyLines gives for the file's lines; no other global changes |
| Multijack.Recorder.SaveProject | multijack.cpp:858-882 | succeeds exactly when the file can be written, and then writes ConfigText of the tracks and head |
| Multijack.Recorder.LoadProject | multijack.cpp:765-835 | succeeds exactly when the file opens; then the tracks are new tracks configured by the .cfg, the head is the .cfg's head cut to an int and clamped, the file offset is at the head, and the read buffer holds one period |
| Multijack.Recorder.Reopen | multijack.cpp:767-781 | closes the open project and opens the new one as Opening says, from no tracks |
| Multijack.Recorder.Configure | multijack.cpp:782-834 | applies the .cfg, cuts the head to an int and clamps it, seeks to it, replaces the read buffer and updates the length |
| Multijack.ReadConfig | multijack.cpp:788-822 | the fgets loop yields the tracks and head ApplyLines gives for the file's lines |
| Multijack.SavedTrack | multijack.cpp:865-876 | the text saved for i + 1 tracks is that for i tracks followed by track i's three lines |
| Multijack.ScanForData | multijack.cpp:578-665 | the chunk loop finds a data chunk exactly when ScanChunks does, leaves the offset at its payload, and reads the format ScanChunks reads |
| Multijack.NextChunk | multijack.cpp:578-664 | one pass moves the offset past at least one 8-byte header, or ends the loop with ScanChunks' answer |
| Multijack.AddTracks | multijack.cpp:594-595 | appends exactly one new track per channel |
| Multijack.MovePayload | multijack.cpp:629-649 | the copy loop moves the payload to byte 44, keeps the header and the file length |
| Multijack.OpenWave | multijack.cpp:550-661 | the opened file, tracks, rate and frame size are those of Opening |
| Multijack.PrepareFile | multijack.cpp:557-571 | a signed file is kept at the current rate; any other becomes the silent file at JACK's rate, with the offset at 12 |
| Multijack.LoadPayload | multijack.cpp:613-661 | the file becomes Loaded, the data bounds are [44, end) and the offset is at the end |
| Multijack.PutHeader | multijack.cpp:697-713 | the two header writes put HeaderBytes at byte 0 and leave the offset |
| Multijack.PutSilence | multijack.cpp:565-571 | the file becomes the silent file with the offset at 12 |
| Multijack.PutImport | multijack.cpp:626-651 | a payload after byte 44 ends at byte 44 under a fresh header and the file is cut behind it |
| Multijack.PutImportEarly | multijack.cpp:626-651 | the corrected import of a payload before byte 44 gives the same file as PutImport's |
| Multijack.ImportedFrom | multijack.cpp:650 | a header and the payload at 44, cut after it, are the Imported file |
| Multijack.FillHeader | multijack.cpp:699-709 | the first 36 header bytes are RIFF, the size, WAVE, fmt  and the format body |
| Multijack.FillFormat | multijack.cpp:703-709 | the fmt chunk size and body follow the tag |
| Multijack.HeaderWrites | multijack.cpp:710-713 | the two pwrite calls land as one write of the whole header |
| Findings.DataBeforeFormat | multijack.cpp:613-660 | as written: a signed file whose data chunk comes before any fmt chunk reaches the data branch with no track added and the frame size still in force (0 on a first open, the previous file's on a reopen) |
| Findings.NoFormatFileRefused | multijack.cpp:613-660 | corrected: that file is refused |
| Findings.EarlyPayloadScan | multijack.cpp:578-616 | a signed file whose fmt chunk gives size 8 has its payload found at byte 36 |
| Findings.ImportLoopNeverEnds | multijack.cpp:629-649 | as written: for a payload before byte 44 the write offset stays 44 - start ahead of the read offset and every pread returns bytes, so the loop runs until storage runs out |
| Findings.EarlyPayloadNeverImports | multijack.cpp:629-649 | as written: the concrete early-payload file is copied forward pass after pass without end while storage lasts |
| Findings.EarlyPayloadImported | multijack.cpp:619-651 | corrected: that file opens with its frame moved behind a fresh header, and opening it again changes nothing |
| Findings.ZeroChannelsReachData | multijack.cpp:585-660 | as written: a signed file whose only fmt chunk declares 0 channels reaches the data branch with a format read, no track and frame size 0, from no tracks as every open starts |
| Findings.ZeroChannelFileRefused | multijack.cpp:585-660 | corrected: that file is refused |

## Left out

- The ncurses display (menus, head position, the import progress bar, the display half of UpdateLength): user interface only.
- The JACK client: connecting, creating ports, connecting and disconnecting playback, transport start/stop/locate, and fetching port buffers. These are foreign calls. Port buffers are arrays passed in, and the JACK sample rate is a parameter.
- `main`, `Quit`, termios, `usleep`/`sleep` and `OnJackShutdown`: process lifecycle.
- `OnJackBufferChange` and any race between the audio callback and the control thread: concurrency. Each callback is one atomic method.
- `OnJackTimebase`: it is never registered.
- The 'q', 'o', 'e' and 'z' keys (multijack.cpp:343-351, 521-533): 'q' only ends the main loop, 'e' only clears screen lines, and 'o' and 'z' do nothing.
- The `cp` shell command of `SaveProject` when saving under a new name: only saving under the current name is modelled.
- g_pSilence: an output buffer the model does not need, since outputs are written directly.
- Float rounding: samples are real numbers. A sample bit pattern that is not finite (infinity or NaN) reads as 0.0.
- The file is a `seq` field of a class, not an array, because the engine grows and truncates it. The `.cfg` text is a string of characters, and fopen failing is a `None`.
- Multijack.Recorder.Process: requires a read buffer of at least n frames, a frame size of 4 bytes per track while a file is open, and a period whose byte count fits in 32 bits. The source relies on these without checking them.
- Multijack.Recorder.HandleControl: requires the arms to name existing tracks and, for the keys that act on the selected track, a selection on a track. The source relies on the selection for those keys, but indexes the tracks by the arms only for 'a', 'b', the space bar on a rolling deck and 'G' while recording is enabled; for every other key the arm requirement is stronger than the source needs.
- Config.ConfigRoundTrip: stated only for at most 100 tracks and for levels and a head that fit in an int. With more tracks the %02d numbers have three digits, and the reader takes only two.
- Multijack.Recorder.OpenFile: the three defects listed under Findings are corrected, not reproduced. Findings models each as written. A data chunk before any fmt chunk is refused on every open, including a reopen, where the source instead accepts the file with zero tracks and the previous file's frame size. A data chunk after fmt chunks that declare no channels is refused, where the source divides by zero at multijack.cpp:660.
- Multijack.PutSilence: the source builds the silent payload in a stack array of rate × 256 bytes (multijack.cpp:567), 11,289,600 bytes at 44100 Hz, which can exceed a usual 8 MiB stack. The model has no stack and writes the silent file whatever its size. Wave.FreshFile describes that file under the same assumption.

## Findings

| source | as written | input that shows it | evidently intended | confidence | as-written member | corrected member |
|---|---|---|---|---|---|---|
| multijack.cpp:613-660 | a data chunk reached before any fmt chunk divides by g_nFrameSize, which is 0 on the first open; on a later open CloseFile has left the previous file's frame size there, and the file is accepted as a project of zero tracks | a RIFF/WAVE file with a 16-byte JUNK chunk and then an empty data chunk (Findings.NoFormatFile) | refuse a file whose data chunk has no format before it | not executed | Findings.DataBeforeFormat | Findings.NoFormatFileRefused |
| multijack.cpp:629-649 | when the payload starts before byte 44, the copy writes ahead of where it reads, so the file always extends past the read offset and pread never returns 0: the loop runs until pwrite fails or the process is killed at the file-size limit, by which time the payload has been overwritten by copies of the bytes before it | a signed file whose fmt chunk declares size 8 with an 8-byte body: the source reads 16 bytes of body, taking in the data chunk header, seeks back 8 bytes to it, and the payload starts at byte 36 (Findings.EarlyPayload) | move the payload to byte 44 in a way that does not overwrite bytes not yet read | not executed | Findings.ImportLoopNeverEnds | Findings.EarlyPayloadImported |
| multijack.cpp:585-660 | a fmt chunk declaring 0 channels adds no track, so g_nFrameSize is set to 0 at line 604 and line 660 divides by it; CloseFile clears the tracks, so this happens on every open | the 44-byte header WriteHeader writes for 0 channels and an empty wave (Findings.ZeroChannelFile) | refuse a file whose fmt chunks declare no channels | not executed | Findings.ZeroChannelsReachData | Findings.ZeroChannelFileRefused |
