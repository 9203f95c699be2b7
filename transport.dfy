/** The tape transport as OnJackProcess (multijack.cpp:26-98) drives it, one
    audio period at a time: the TC_* states, the play head, the last frame,
    and the fades applied to the monitor mix. */
module Transport {

  /** TC_STOPPED, TC_ROLLING, TC_STOPPING, TC_STOP (stop requested) and
      TC_START (start requested), multijack.h:22-26. */
  datatype State = Stopped | Rolling | Stopping | Stop | Start

  /** What one period changes: the transport, g_lHeadPos and g_lLastFrame. */
  datatype Deck = Deck(state: State, head: int, lastFrame: int)

  /** True when the period does nothing but keep silent (STOPPED) or silence
      the outputs (STOPPING). */
  predicate Idle(s: State)
  {
    s == Stopped || s == Stopping
  }

  /** The state in force while the period's frames are mixed: a stop is
      requested when playing (not recording) and the head has passed
      lastFrame - 2n, so that the last whole period can be faded out. */
  function MixState(d: Deck, recordEnabled: bool, n: nat): (s: State)
    requires !Idle(d.state)
    ensures s == Stop <==> d.state == Stop || (!recordEnabled && d.head > d.lastFrame - 2 * n)
    ensures s != Stop ==> s == d.state
  {
    if !recordEnabled && d.head > d.lastFrame - 2 * n then Stop else d.state
  }

  /** A requested stop or start, served once the period's frames are mixed. */
  function Served(s: State): (r: State)
    ensures r != Stop && r != Start
    ensures s != Stop && s != Start ==> r == s
  {
    if s == Stop then Stopping else if s == Start then Rolling else s
  }

  /** The deck after one period of n frames in which `frames` whole frames
      were read from the file. */
  function Period(d: Deck, recordEnabled: bool, n: nat, frames: nat): Deck
  {
    if d.state == Stopped then d
    else if d.state == Stopping then d.(state := Stopped)
    else
      var s := MixState(d, recordEnabled, n);
      var head := d.head + frames;
      var next := Served(s);
      if head >= d.lastFrame then
        if recordEnabled then Deck(next, head + n, d.lastFrame + n)
        else Deck(Stopping, head, d.lastFrame)
      else Deck(next, head, d.lastFrame)
  }

  /** The monitor value of frame f of an n-frame period: faded in over the
      period while a start is requested, faded out while a stop is. */
  function Faded(s: State, f: nat, n: nat, m: real): real
    requires n > 0
  {
    if s == Stop then ((n - f) as real) * m / (n as real)
    else if s == Start then (f as real) * m / (n as real)
    else m
  }

  lemma StoppedIsIdle(d: Deck, recordEnabled: bool, n: nat, frames: nat)
    requires d.state == Stopped
    ensures Period(d, recordEnabled, n, frames) == d
  {
  }

  /** A period in STOPPING moves to STOPPED and keeps the head and length. */
  lemma StoppingSettles(d: Deck, recordEnabled: bool, n: nat, frames: nat)
    requires d.state == Stopping
    ensures Period(d, recordEnabled, n, frames) == Deck(Stopped, d.head, d.lastFrame)
  {
  }

  /** An active period advances the head by exactly the frames read, plus a
      whole period when it extends a recording past the last frame; the last
      frame moves only in that case. */
  lemma HeadAdvance(d: Deck, recordEnabled: bool, n: nat, frames: nat)
    requires !Idle(d.state)
    ensures var e := Period(d, recordEnabled, n, frames);
      var extend := recordEnabled && d.head + frames >= d.lastFrame;
      e.head == d.head + frames + (if extend then n else 0)
      && e.lastFrame == d.lastFrame + (if extend then n else 0)
  {
  }

  /** Requests are served after one period: STOP becomes STOPPING, and START
      becomes ROLLING unless the end of the media is near. */
  lemma RequestsServedInOnePeriod(d: Deck, recordEnabled: bool, n: nat, frames: nat)
    requires d.state == Stop || d.state == Start
    ensures var e := Period(d, recordEnabled, n, frames);
      var clear := recordEnabled || (d.head <= d.lastFrame - 2 * n && d.head + frames < d.lastFrame);
      (d.state == Stop ==> e.state == Stopping)
      && (d.state == Start && clear ==> e.state == Rolling)
  {
  }

  /** Playback that comes within two periods of the end is stopped: the period
      fades out and leaves STOPPING, and the next one leaves STOPPED, with the
      head where the first left it. */
  lemma {:induction false} EndOfMediaStopsInTwoPeriods(d: Deck, n: nat, frames1: nat, frames2: nat)
    requires d.state == Rolling || d.state == Start
    requires d.head > d.lastFrame - 2 * n
    ensures var e := Period(d, false, n, frames1);
      e.state == Stopping && e.head == d.head + frames1
      && Period(e, false, n, frames2) == Deck(Stopped, e.head, d.lastFrame)
  {
    var e := Period(d, false, n, frames1);
    assert MixState(d, false, n) == Stop;
    assert e.state == Stopping;
    StoppingSettles(e, false, n, frames2);
  }

  /** While playing, the head never passes the last frame as long as no more
      frames are read than remain before it. */
  lemma PlaybackStaysInside(d: Deck, n: nat, frames: nat)
    requires 0 <= d.head <= d.lastFrame
    requires frames <= d.lastFrame - d.head
    ensures var e := Period(d, false, n, frames);
      0 <= e.head <= e.lastFrame && e.lastFrame == d.lastFrame
  {
  }

  /** While recording the transport is never stopped by the end of the media:
      a ROLLING deck stays ROLLING and the tape grows instead. */
  lemma RecordingNeverRunsOut(d: Deck, n: nat, frames: nat)
    requires d.state == Rolling
    ensures var e := Period(d, true, n, frames);
      e.state == Rolling && e.lastFrame >= d.lastFrame
      && (d.head + frames >= d.lastFrame ==> e.head == d.head + frames + n && e.lastFrame == d.lastFrame + n)
  {
  }

  /** The fade-in begins in silence and the fade-out starts at full level. */
  lemma FadeEnds(m: real, n: nat)
    requires n > 0
    ensures Faded(Start, 0, n, m) == 0.0
    ensures Faded(Stop, 0, n, m) == m
    ensures Faded(Rolling, 0, n, m) == m
  {
  }

  /** Within a period a fade never makes a frame louder than the unfaded mix
      and never turns its sign. */
  lemma {:induction false} FadeBounded(s: State, f: nat, n: nat, m: real)
    requires f <= n && n > 0
    ensures var v := Faded(s, f, n, m);
      (m >= 0.0 ==> 0.0 <= v <= m) && (m <= 0.0 ==> m <= v <= 0.0)
  {
    if s == Stop {
      var k: nat := n - f;
      assert Faded(s, f, n, m) == (k as real) * m / (n as real);
      FadeStep(k, n, m);
    } else if s == Start {
      FadeStep(f, n, m);
    }
  }

  /** The sample at k of n steps of a fade lies between silence and m. */
  lemma FadeStep(k: nat, n: nat, m: real)
    requires k <= n && n > 0
    ensures var v := (k as real) * m / (n as real);
      (m >= 0.0 ==> 0.0 <= v <= m) && (m <= 0.0 ==> m <= v <= 0.0)
  {
    Fraction(k, n);
    Factor(k, n, m);
    Scaled((k as real) / (n as real), m);
  }

  /** k of n, for k <= n, is a fraction in 0..1. */
  lemma Fraction(k: nat, n: nat)
    requires 0 < n && k <= n
    ensures 0.0 <= (k as real) / (n as real) <= 1.0
  {
  }

  /** Scaling by k and dividing by n is scaling by k / n. */
  lemma Factor(k: nat, n: nat, m: real)
    requires 0 < n
    ensures (k as real) * m / (n as real) == ((k as real) / (n as real)) * m
  {
  }

  /** A factor in 0..1 keeps the sign and does not increase the size. */
  lemma Scaled(g: real, m: real)
    requires 0.0 <= g <= 1.0
    ensures (m >= 0.0 ==> 0.0 <= g * m <= m) && (m <= 0.0 ==> m <= g * m <= 0.0)
  {
    if m >= 0.0 {
      assert g * m <= 1.0 * m;
    } else {
      assert g * m >= 1.0 * m;
    }
  }
}
