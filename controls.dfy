/** The state changes behind the keyboard controls of HandleControl
    (multijack.cpp:352-520), the play-head clamp of SetPlayHead
    (multijack.cpp:750-763) and the transport events of OnJackSync
    (multijack.cpp:100-120), as functions of the values they change. */
module Controls {
  import opened Bytes
  import opened Tracks
  import opened Transport

  /** The keys HandleControl acts on: the arrows and shifted arrows, 'l',
      'r', 'a', 'b', 'm', 'M', ' ', 'G', HOME, END, ',', '.', '<' and '>'.
      Every other key changes none of the state modelled here. */
  datatype Key =
    | KeyDown | KeyUp | KeyRight | KeyLeft | KeyShiftRight | KeyShiftLeft
    | MuteLegA | MuteLegB | ArmLegA | ArmLegB | MuteTrack | MuteEveryTrack
    | StartStop | RecordMode | Home | End
    | Back1 | Forward1 | Back10 | Forward10
    | OtherKey

  /** The keys that act on the selected track. */
  predicate OnSelected(k: Key)
  {
    k in {KeyRight, KeyLeft, KeyShiftRight, KeyShiftLeft, MuteLegA, MuteLegB,
          ArmLegA, ArmLegB, MuteTrack, MuteEveryTrack}
  }

  /** The seconds a seek key moves the head by. */
  function SeekSeconds(k: Key): int
    requires k in {Back1, Forward1, Back10, Forward10}
  {
    match k
    case Back1 => -1
    case Forward1 => 1
    case Back10 => -10
    case Forward10 => 10
  }

  /** KEY_DOWN: the unsigned selection is incremented and, once it reaches
      the track count, set to the last track (count - 1 taken as unsigned). */
  function SelectNext(sel: word, count: nat): word
  {
    var up := Uint32(sel + 1);
    if up >= count then Uint32(count - 1) else up
  }

  /** KEY_UP: the selection moves back unless it is the first track. */
  function SelectPrevious(sel: word): word
  {
    if sel > 0 then sel - 1 else sel
  }

  /** Moving the selection keeps it on an existing track, one step at a time
      and never past either end. */
  lemma SelectionStaysOnTracks(sel: word, count: nat)
    requires sel < count < TWO32
    ensures SelectNext(sel, count) < count && SelectPrevious(sel) < count
    ensures SelectNext(sel, count) == if sel + 1 < count then sel + 1 else count - 1
    ensures SelectPrevious(sel) == if sel == 0 then 0 else sel - 1
  {
  }

  /** KEY_RIGHT: one step up, only below 100. */
  function LevelUp(level: int): int
  {
    if level < 100 then level + 1 else level
  }

  /** KEY_LEFT: one step down, only above 0. */
  function LevelDown(level: int): int
  {
    if level > 0 then level - 1 else level
  }

  /** The level keys keep a monitor level inside 0..100 and move it by one
      step unless it is at the end of the range. */
  lemma LevelKeysStayInRange(level: int)
    requires 0 <= level <= 100
    ensures 0 <= LevelUp(level) <= 100 && 0 <= LevelDown(level) <= 100
    ensures LevelUp(level) == level + 1 <==> level < 100
    ensures LevelDown(level) == level - 1 <==> level > 0
  {
  }

  /** A level from a loaded configuration outside 0..100 is moved no further
      out by the key that points away from the range. */
  lemma LevelKeysNeverLeaveFurther(level: int)
    ensures level > 100 ==> LevelUp(level) == level && LevelDown(level) == level - 1
    ensures level < 0 ==> LevelDown(level) == level && LevelUp(level) == level + 1
  {
  }

  /** The level after pressing KEY_RIGHT k times. */
  function LevelUpTimes(level: int, k: nat): int
  {
    if k == 0 then level else LevelUp(LevelUpTimes(level, k - 1))
  }

  /** From any level in range, 100 presses of KEY_RIGHT reach full level. */
  lemma {:induction false} LevelUpReachesFull(level: int, k: nat)
    requires 0 <= level <= 100
    ensures LevelUpTimes(level, k) == if level + k <= 100 then level + k else 100
  {
    if k > 0 {
      LevelUpReachesFull(level, k - 1);
    }
  }

  /** 'l' and 'r': one leg's mute flips. */
  function ToggleMuteA(t: Track): Track
  {
    t.(muteA := !t.muteA)
  }

  function ToggleMuteB(t: Track): Track
  {
    t.(muteB := !t.muteB)
  }

  /** 'm': both legs unmuted when both were muted, both muted otherwise. */
  function ToggleMuteBoth(t: Track): Track
  {
    if t.muteA && t.muteB then t.(muteA := false, muteB := false)
    else t.(muteA := true, muteB := true)
  }

  /** 'm' leaves the legs agreeing, and silences the track exactly when it
      was not already silenced by both mutes. */
  lemma ToggleMuteBothAgrees(t: Track, v: real)
    ensures var u := ToggleMuteBoth(t);
      u.muteA == u.muteB && (u.muteA <==> !(t.muteA && t.muteB))
      && u.monMix == t.monMix && u.recording == t.recording
      && (u.muteA ==> Mix(u, v) == 0.0)
  {
  }

  /** A leg toggled twice is back where it was. */
  lemma ToggleMuteTwice(t: Track)
    ensures ToggleMuteA(ToggleMuteA(t)) == t && ToggleMuteB(ToggleMuteB(t)) == t
  {
  }

  /** 'M': every track gets both legs muted, or both unmuted, as the
      opposite of the selected track's A leg. */
  function MuteAll(tracks: seq<Track>, mute: bool): (r: seq<Track>)
    ensures |r| == |tracks|
    ensures forall i :: 0 <= i < |r| ==> r[i] == tracks[i].(muteA := mute, muteB := mute)
  {
    seq(|tracks|, i requires 0 <= i < |tracks| => tracks[i].(muteA := mute, muteB := mute))
  }

  /** After 'M' that mutes, every track is silent; pressed again on the same
      selection it unmutes every leg. */
  lemma MuteAllTwice(tracks: seq<Track>, sel: nat, v: real)
    requires sel < |tracks| && !tracks[sel].muteA
    ensures var once := MuteAll(tracks, true);
      (forall i :: 0 <= i < |once| ==> Mix(once[i], v) == 0.0)
      && once[sel].muteA
      && MuteAll(once, !once[sel].muteA) == MuteAll(tracks, false)
  {
    var once := MuteAll(tracks, true);
    forall i | 0 <= i < |once| ensures Mix(once[i], v) == 0.0 {
      MixSilentWhenBothLegsMuted(once[i], v);
    }
  }

  /** Every track whose recording flag is set is armed on leg A or leg B. */
  predicate RecordingArmed(tracks: seq<Track>, recA: int, recB: int)
  {
    forall i :: 0 <= i < |tracks| && tracks[i].recording ==> i == recA || i == recB
  }

  /** The track with its recording flag set to `on`. */
  function SetRecording(tracks: seq<Track>, i: int, on: bool): (r: seq<Track>)
    requires -1 <= i < |tracks|
    ensures |r| == |tracks|
  {
    if i == -1 then tracks else tracks[i := tracks[i].(recording := on)]
  }

  /** 'a' and 'b': arming the leg's track again disarms it (flag cleared,
      track -1); arming another track clears the old track's flag, arms the
      selected track and sets its flag. Returns the tracks and the leg's
      new track number. */
  function Arm(tracks: seq<Track>, rec: int, sel: nat): (r: (seq<Track>, int))
    requires sel < |tracks| && -1 <= rec < |tracks|
    ensures |r.0| == |tracks|
  {
    var none: int := -1;
    if rec == sel then (SetRecording(tracks, rec, false), none)
    else (SetRecording(SetRecording(tracks, rec, false), sel, true), sel as int)
  }

  /** What arming does, track by track: the leg ends on the selected track
      exactly when it was elsewhere, only the recording flags of the old and
      the selected track change, and the selected track's flag says whether
      the leg is now on it. */
  lemma ArmEffect(tracks: seq<Track>, rec: int, sel: nat)
    requires sel < |tracks| && -1 <= rec < |tracks|
    ensures var (t, r) := Arm(tracks, rec, sel);
      (r == sel <==> rec != sel) && (r != sel ==> r == -1)
      && t[sel].recording == (r == sel)
      && (forall i :: 0 <= i < |t| ==>
            t[i].monMix == tracks[i].monMix && t[i].muteA == tracks[i].muteA && t[i].muteB == tracks[i].muteB)
      && (forall i :: 0 <= i < |t| && i != sel && i != rec ==> t[i] == tracks[i])
      && (rec != -1 && rec != sel ==> !t[rec].recording)
  {
  }

  /** Arming leg A keeps every recording track armed. */
  lemma ArmAKeepsRecordingArmed(tracks: seq<Track>, recA: int, recB: int, sel: nat)
    requires sel < |tracks| && -1 <= recA < |tracks|
    requires RecordingArmed(tracks, recA, recB)
    ensures var (t, a) := Arm(tracks, recA, sel); RecordingArmed(t, a, recB)
  {
    ArmEffect(tracks, recA, sel);
  }

  /** Arming leg B keeps every recording track armed. */
  lemma ArmBKeepsRecordingArmed(tracks: seq<Track>, recA: int, recB: int, sel: nat)
    requires sel < |tracks| && -1 <= recB < |tracks|
    requires RecordingArmed(tracks, recA, recB)
    ensures var (t, b) := Arm(tracks, recB, sel); RecordingArmed(t, recA, b)
  {
    ArmEffect(tracks, recB, sel);
  }

  /** Arming a leg and pressing the key again on the same track disarms it and
      leaves no flag set on that track or the leg's old one; everything else
      about the tracks is as before. */
  lemma {:induction false} ArmTwiceDisarms(tracks: seq<Track>, rec: int, sel: nat)
    requires sel < |tracks| && -1 <= rec < |tracks| && rec != sel
    ensures var (t1, r1) := Arm(tracks, rec, sel);
      var (t2, r2) := Arm(t1, r1, sel);
      r2 == -1 && !t2[sel].recording && (rec != -1 ==> !t2[rec].recording)
      && (forall i :: 0 <= i < |t2| && i != sel && i != rec ==> t2[i] == tracks[i])
  {
    ArmEffect(tracks, rec, sel);
    var (t1, r1) := Arm(tracks, rec, sel);
    ArmEffect(t1, r1, sel);
  }

  /** The flags of both armed tracks cleared (the ' ' stop and 'G' keys);
      the arms themselves stay. */
  function ClearRecording(tracks: seq<Track>, recA: int, recB: int): (r: seq<Track>)
    requires -1 <= recA < |tracks| && -1 <= recB < |tracks|
    ensures |r| == |tracks|
  {
    SetRecording(SetRecording(tracks, recA, false), recB, false)
  }

  /** When only armed tracks record, clearing the armed flags leaves no track
      recording, and changes nothing else. */
  lemma ClearRecordingSilencesNone(tracks: seq<Track>, recA: int, recB: int)
    requires -1 <= recA < |tracks| && -1 <= recB < |tracks|
    requires RecordingArmed(tracks, recA, recB)
    ensures var r := ClearRecording(tracks, recA, recB);
      forall i :: 0 <= i < |r| ==> r[i] == tracks[i].(recording := false)
  {
  }

  /** The head SetPlayHead sets for a requested position: negative becomes 0,
      then anything past the last frame becomes the last frame. */
  function PlayHeadFor(pos: int, lastFrame: int): int
  {
    var h := if pos < 0 then 0 else pos;
    if h > lastFrame then lastFrame else h
  }

  /** With a non-negative length the head lands inside [0, lastFrame], on the
      requested position whenever that is inside, and at the nearer end
      otherwise. */
  lemma PlayHeadClamped(pos: int, lastFrame: int)
    requires lastFrame >= 0
    ensures var h := PlayHeadFor(pos, lastFrame);
      0 <= h <= lastFrame
      && (0 <= pos <= lastFrame ==> h == pos)
      && (pos < 0 ==> h == 0) && (pos > lastFrame ==> h == lastFrame)
      && PlayHeadFor(h, lastFrame) == h
  {
  }

  /** The seek keys: the position asked of SetPlayHead, which takes an int.
      ',' and '.' move by one second, '<' and '>' by ten (the product taken
      as unsigned); HOME asks for 0 and END for the last frame. */
  function SeekTarget(head: int, rate: word, seconds: int): int
  {
    var step := if seconds == 1 || seconds == -1 then rate else Uint32(10 * rate);
    Int32(if seconds < 0 then head - step else head + step)
  }

  /** Within the range of an int the seek keys move the head request by
      exactly the rate per second. */
  lemma SeekMovesBySeconds(head: int, rate: word, seconds: int)
    requires seconds == 1 || seconds == -1 || seconds == 10 || seconds == -10
    requires 10 * rate < TWO32
    requires -0x8000_0000 <= head + seconds * rate < 0x8000_0000
    ensures SeekTarget(head, rate, seconds) == head + seconds * rate
  {
  }

  /** The transport states the sync callback receives. */
  datatype JackState = JackStopped | JackRolling | JackStarting | JackOther

  /** OnJackSync: starting requests a start, rolling means rolling, stopped
      requests a stop (and relocates the head); other states change nothing. */
  function SyncState(s: JackState, current: State): State
  {
    match s
    case JackStarting => Start
    case JackRolling => Rolling
    case JackStopped => Stop
    case JackOther => current
  }

  /** A stop from the transport is faded out and reaches STOPPED in two
      periods, whatever the deck was doing. */
  lemma {:induction false} SyncStopSettles(current: State, frame: int, lastFrame: int, recordEnabled: bool,
                                           n: nat, frames1: nat, frames2: nat)
    requires frames1 == 0 || !recordEnabled
    requires frame + frames1 < lastFrame
    ensures var d := Deck(SyncState(JackStopped, current), frame, lastFrame);
      var e := Period(d, recordEnabled, n, frames1);
      e.state == Stopping && Period(e, recordEnabled, n, frames2).state == Stopped
  {
    var d := Deck(SyncState(JackStopped, current), frame, lastFrame);
    RequestsServedInOnePeriod(d, recordEnabled, n, frames1);
  }
}
