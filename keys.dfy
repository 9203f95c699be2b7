/** The keyboard controls of HandleControl (multijack.cpp:352-520) as one
    function of the program's globals, and what they keep true: the arms
    name existing tracks, only armed tracks record, the monitor levels stay
    in 0..100 and the selection stays on a track. */
module Keys {
  import opened Bytes
  import opened Tracks
  import opened Transport
  import opened Controls

  /** The globals of multijack.cpp the recorder keeps besides the file and
      the read buffer. */
  datatype Globals = Globals(
    tracks: seq<Track>, transport: State, head: int, lastFrame: int,
    startOfData: nat, endOfData: int, frameSize: nat, sampleRate: word,
    recordEnabled: bool, recA: int, recB: int, selected: word,
    captureLatency: word, playbackLatency: word, recordOffset: word, fdOpen: bool)

  /** Each arm names an existing track or none (-1). */
  predicate ArmsInRange(g: Globals)
  {
    -1 <= g.recA < |g.tracks| && -1 <= g.recB < |g.tracks|
  }

  /** What the handler relies on without checking: the arms are in range,
      and the selected track exists for the keys that act on it. */
  predicate CanHandle(g: Globals, k: Key)
  {
    ArmsInRange(g) && (OnSelected(k) ==> g.selected < |g.tracks|)
  }

  /** SetPlayHead (multijack.cpp:750-763) on the globals: nothing while
      recording and rolling, otherwise the head clamped to the tape. */
  function PlayHeadSet(g: Globals, position: int): Globals
  {
    if g.recordEnabled && g.transport == Rolling then g
    else g.(head := PlayHeadFor(position, g.lastFrame))
  }

  /** UpdateLength (multijack.cpp:887-891) on the globals: the whole frames
      between start and end of data; nothing while the frame size is 0. */
  function LengthUpdated(g: Globals): Globals
  {
    if g.frameSize == 0 then g
    else g.(lastFrame := DivTrunc(g.endOfData - g.startOfData, g.frameSize))
  }

  /** The selected track with a new monitor level. */
  function WithLevel(g: Globals, level: int): Globals
    requires g.selected < |g.tracks|
  {
    g.(tracks := g.tracks[g.selected := g.tracks[g.selected].(monMix := level)])
  }

  /** The selected track replaced by `t`. */
  function WithSelected(g: Globals, t: Track): Globals
    requires g.selected < |g.tracks|
  {
    g.(tracks := g.tracks[g.selected := t])
  }

  /** The globals after HandleControl has handled key `k`. */
  function Control(g: Globals, k: Key): Globals
    requires CanHandle(g, k)
  {
    match k
    case KeyDown => g.(selected := SelectNext(g.selected, |g.tracks|))
    case KeyUp => g.(selected := SelectPrevious(g.selected))
    case KeyRight => WithLevel(g, LevelUp(g.tracks[g.selected].monMix))
    case KeyLeft => WithLevel(g, LevelDown(g.tracks[g.selected].monMix))
    case KeyShiftRight => WithLevel(g, 100)
    case KeyShiftLeft => WithLevel(g, 0)
    case MuteLegA => WithSelected(g, ToggleMuteA(g.tracks[g.selected]))
    case MuteLegB => WithSelected(g, ToggleMuteB(g.tracks[g.selected]))
    case MuteTrack => WithSelected(g, ToggleMuteBoth(g.tracks[g.selected]))
    case MuteEveryTrack => g.(tracks := MuteAll(g.tracks, !g.tracks[g.selected].muteA))
    case ArmLegA =>
      var (t, a) := Arm(g.tracks, g.recA, g.selected);
      g.(tracks := t, recA := a)
    case ArmLegB =>
      var (t, b) := Arm(g.tracks, g.recB, g.selected);
      g.(tracks := t, recB := b)
    case StartStop =>
      if g.transport == Stopped then
        var h := if !g.recordEnabled && g.head >= g.lastFrame then 0 else g.head;
        PlayHeadSet(g.(transport := Start, head := h), Int32(h))
      else if g.transport == Rolling then
        LengthUpdated(g.(transport := Stop, recordEnabled := false,
                         tracks := ClearRecording(g.tracks, g.recA, g.recB)))
      else g
    case RecordMode =>
      if g.recordEnabled then g.(recordEnabled := false, tracks := ClearRecording(g.tracks, g.recA, g.recB))
      else g.(recordEnabled := true)
    case Home => PlayHeadSet(g, 0)
    case End => PlayHeadSet(g, Int32(g.lastFrame))
    case Back1 => PlayHeadSet(g, SeekTarget(g.head, g.sampleRate, SeekSeconds(k)))
    case Forward1 => PlayHeadSet(g, SeekTarget(g.head, g.sampleRate, SeekSeconds(k)))
    case Back10 => PlayHeadSet(g, SeekTarget(g.head, g.sampleRate, SeekSeconds(k)))
    case Forward10 => PlayHeadSet(g, SeekTarget(g.head, g.sampleRate, SeekSeconds(k)))
    case OtherKey => g
  }

  /** The keys whose SetPlayHead call goes through, so that the descriptor
      is moved to the head: the start key from STOPPED (the transport is
      already START then), and HOME, END and the seek keys unless the deck
      is recording and rolling. */
  predicate Seeks(g: Globals, k: Key)
  {
    (k == StartStop && g.transport == Stopped)
    || (k in {Home, End, Back1, Forward1, Back10, Forward10} && !(g.recordEnabled && g.transport == Rolling))
  }

  /** Every monitor level is in 0..100. */
  predicate LevelsInRange(tracks: seq<Track>)
  {
    forall i :: 0 <= i < |tracks| ==> 0 <= tracks[i].monMix <= 100
  }

  /** No key adds or removes tracks, and every key keeps the arms on
      existing tracks and every recording track armed. */
  lemma ControlKeepsArms(g: Globals, k: Key)
    requires CanHandle(g, k) && RecordingArmed(g.tracks, g.recA, g.recB)
    ensures var h := Control(g, k);
      |h.tracks| == |g.tracks| && ArmsInRange(h) && RecordingArmed(h.tracks, h.recA, h.recB)
  {
    match k
    case ArmLegA => ArmAKeepsRecordingArmed(g.tracks, g.recA, g.recB, g.selected);
    case ArmLegB => ArmBKeepsRecordingArmed(g.tracks, g.recA, g.recB, g.selected);
    case StartStop => ClearRecordingSilencesNone(g.tracks, g.recA, g.recB);
    case RecordMode => ClearRecordingSilencesNone(g.tracks, g.recA, g.recB);
    case _ =>
  }

  /** The level keys keep every monitor level in 0..100, and no other key
      changes a level. */
  lemma ControlKeepsLevels(g: Globals, k: Key)
    requires CanHandle(g, k) && LevelsInRange(g.tracks)
    ensures LevelsInRange(Control(g, k).tracks)
    ensures k !in {KeyRight, KeyLeft, KeyShiftRight, KeyShiftLeft} ==>
      forall i :: 0 <= i < |g.tracks| ==> Control(g, k).tracks[i].monMix == g.tracks[i].monMix
  {
    var h := Control(g, k);
    if k in {KeyRight, KeyLeft, KeyShiftRight, KeyShiftLeft} {
      LevelKeysStayInRange(g.tracks[g.selected].monMix);
      assert 0 <= h.tracks[g.selected].monMix <= 100;
      assert forall i :: 0 <= i < |h.tracks| && i != g.selected ==> h.tracks[i] == g.tracks[i];
    } else {
      LevelsUnchanged(g, k);
    }
  }

  /** Only the level keys change a level. */
  lemma LevelsUnchanged(g: Globals, k: Key)
    requires CanHandle(g, k) && k !in {KeyRight, KeyLeft, KeyShiftRight, KeyShiftLeft}
    ensures |Control(g, k).tracks| == |g.tracks|
    ensures forall i :: 0 <= i < |g.tracks| ==> Control(g, k).tracks[i].monMix == g.tracks[i].monMix
  {
    match k
    case ArmLegA => ArmEffect(g.tracks, g.recA, g.selected);
    case ArmLegB => ArmEffect(g.tracks, g.recB, g.selected);
    case _ =>
  }

  /** With at least one track the selection stays on a track whatever key
      is pressed. */
  lemma ControlKeepsSelection(g: Globals, k: Key)
    requires CanHandle(g, k) && g.selected < |g.tracks| < TWO32
    ensures Control(g, k).selected < |Control(g, k).tracks|
  {
    SelectionStaysOnTracks(g.selected, |g.tracks|);
  }

  /** The space bar stops a rolling deck: STOP is requested, recording is
      disabled, no track keeps its recording flag when only armed tracks
      recorded, and the length is taken from the data. */
  lemma StopKeyEndsRecording(g: Globals)
    requires g.transport == Rolling && ArmsInRange(g) && RecordingArmed(g.tracks, g.recA, g.recB)
    ensures var h := Control(g, StartStop);
      h.transport == Stop && !h.recordEnabled
      && (forall i :: 0 <= i < |h.tracks| ==> !h.tracks[i].recording)
      && h.head == g.head
      && (g.frameSize > 0 ==> h.lastFrame == DivTrunc(g.endOfData - g.startOfData, g.frameSize))
  {
    ClearRecordingSilencesNone(g.tracks, g.recA, g.recB);
  }

  /** The space bar on a stopped deck requests a start; playback from the
      end of the tape (or past it) starts again from the beginning. The head
      reaches SetPlayHead as an int, so a head of 2^31 or more that JACK's
      32-bit frame left there (multijack.cpp:112-114) wraps negative and the
      start rewinds to 0. */
  lemma StartKeyRewinds(g: Globals)
    requires g.transport == Stopped && g.lastFrame >= 0 && ArmsInRange(g)
    ensures var h := Control(g, StartStop);
      h.transport == Start && h.tracks == g.tracks && h.recordEnabled == g.recordEnabled
      && (!g.recordEnabled && g.head >= g.lastFrame ==> h.head == 0)
      && (0 <= g.head < g.lastFrame && g.head < 0x8000_0000 ==> h.head == g.head)
      && (0x8000_0000 <= g.head < TWO32 && (g.recordEnabled || g.head < g.lastFrame) ==> h.head == 0)
  {
  }

  /** While recording and rolling no key moves the head. */
  lemma NoShuttleWhileRecording(g: Globals, k: Key)
    requires CanHandle(g, k) && g.recordEnabled && g.transport == Rolling
    requires k != StartStop
    ensures Control(g, k).head == g.head && !Seeks(g, k)
  {
  }
}
