/** One mono track: its monitor level, the mute flags of its two monitor legs
    and the flag that keeps a track that is being recorded out of the monitor mix
    (class Track, track.h). */
module Tracks {

  /** nMonMix is a percentage, 0..100 when set from the keyboard, but a loaded
      configuration may store any integer, so the type does not restrict it. */
  datatype Track = Track(monMix: int, muteA: bool, muteB: bool, recording: bool)

  /** The value-initialised track `new Track()` creates: level 0, both legs
      unmuted, not recording. */
  const NewTrack: Track := Track(0, false, false, false)

  /** True when the track contributes nothing to the monitor outputs. */
  predicate Silenced(t: Track)
  {
    (t.muteA && t.muteB) || t.recording || t.monMix == 0
  }

  /** Track::Mix: the sample scaled by the monitor level, or silence. Samples are
      reals: single-precision rounding is not modelled. */
  function Mix(t: Track, v: real): real
  {
    if Silenced(t) then 0.0 else (t.monMix as real) * v / 100.0
  }

  lemma MixSilentWhenBothLegsMuted(t: Track, v: real)
    requires t.muteA && t.muteB
    ensures Mix(t, v) == 0.0
  {
  }

  lemma MixSilentWhileRecording(t: Track, v: real)
    requires t.recording
    ensures Mix(t, v) == 0.0
  {
  }

  lemma MixSilentAtZeroLevel(t: Track, v: real)
    requires t.monMix == 0
    ensures Mix(t, v) == 0.0
  {
  }

  /** When none of the three silencing conditions holds the output is
      level% of the input, so it is zero exactly when the input is zero. */
  lemma MixScalesByLevel(t: Track, v: real)
    requires !t.recording && t.monMix != 0 && !(t.muteA && t.muteB)
    ensures Mix(t, v) == (t.monMix as real) * v / 100.0
    ensures Mix(t, v) == 0.0 <==> v == 0.0
  {
  }

  /** At full level a track that is not silenced passes its sample unchanged. */
  lemma MixUnityAtFullLevel(t: Track, v: real)
    requires t.monMix == 100 && !t.recording && !(t.muteA && t.muteB)
    ensures Mix(t, v) == v
  {
  }

  /** Muting one leg only does not silence the track: the other leg still carries it. */
  lemma MixOneLegMutedStillAudible(t: Track, v: real)
    requires t.muteA != t.muteB && !t.recording && t.monMix != 0 && v != 0.0
    ensures Mix(t, v) != 0.0
  {
  }

  /** With a level in 0..100 the monitor output is never louder than its input. */
  lemma MixAttenuates(t: Track, v: real)
    requires 0 <= t.monMix <= 100
    ensures -v <= Mix(t, v) <= v || v <= Mix(t, v) <= -v
  {
    if !Silenced(t) {
      var g := (t.monMix as real) / 100.0;
      assert 0.0 <= g <= 1.0;
      assert Mix(t, v) == g * v;
      if v >= 0.0 {
        assert g * v <= 1.0 * v;
      } else {
        assert g * v >= 1.0 * v;
      }
    }
  }
}
