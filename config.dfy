/** The project configuration file <project>.cfg: the text SaveProject
    writes (multijack.cpp:858-882) and the way LoadProject reads it back
    (multijack.cpp:786-822). Per track it holds the monitor level and the
    mutes of the two legs, and at the end the head position. The text is a
    string whose characters stand for the bytes of the file; LoadProject
    reads it with fgets into a 256-byte buffer, one line at a time. */
module Config {
  import opened Bytes
  import opened Tracks

  datatype Option<T> = None | Some(value: T)

  // Characters and numbers as the C library sees them.

  /** The value C gives a character of the file: its byte as a signed char. */
  function SignedChar(c: char): int
  {
    var b := c as int % 256;
    if b >= 128 then b - 256 else b
  }

  predicate IsDigit(c: char)
  {
    '0' <= c <= '9'
  }

  /** isspace() in the C locale: space, \t, \n, \v, \f and \r. */
  predicate IsSpace(c: char)
  {
    c == ' ' || '\t' <= c <= '\r'
  }

  function DigitChar(d: nat): (c: char)
    requires d < 10
    ensures IsDigit(c) && c as int - '0' as int == d
  {
    ('0' as int + d) as char
  }

  /** The decimal digits of n, without leading zeros. */
  function Digits(n: nat): (s: string)
    ensures 1 <= |s| && forall i :: 0 <= i < |s| ==> IsDigit(s[i])
  {
    if n < 10 then [DigitChar(n)] else Digits(n / 10) + [DigitChar(n % 10)]
  }

  /** printf's %d and %ld. */
  function Decimal(x: int): string
  {
    if x < 0 then "-" + Digits(-x) else Digits(x)
  }

  /** printf's %02d for a track number: at least two digits. */
  function TwoDigits(i: nat): string
  {
    if i < 10 then "0" + [DigitChar(i)] else Digits(i)
  }

  /** The number a run of digits spells. */
  function DigitValue(s: string): nat
    requires forall i :: 0 <= i < |s| ==> IsDigit(s[i])
  {
    if s == [] then 0 else DigitValue(s[..|s| - 1]) * 10 + DigitOf(s[|s| - 1])
  }

  function DigitOf(c: char): nat
    requires IsDigit(c)
  {
    c as int - '0' as int
  }

  /** The length of the run of white space that starts s. */
  function SpaceRun(s: string): (k: nat)
    ensures k <= |s|
  {
    if s == [] || !IsSpace(s[0]) then 0 else 1 + SpaceRun(s[1..])
  }

  /** The length of the run of digits that starts s. */
  function DigitRun(s: string): (k: nat)
    ensures k <= |s| && forall i :: 0 <= i < k ==> IsDigit(s[i])
  {
    if s == [] || !IsDigit(s[0]) then 0 else 1 + DigitRun(s[1..])
  }

  /** The number the longest run of digits at the start of u spells (0
      without any). */
  function Unsigned(u: string): nat
  {
    DigitValue(u[..DigitRun(u)])
  }

  /** The number strtol(s, NULL, 10) parses before its range check: white
      space, an optional sign, then the longest run of digits. */
  function StrtolValue(s: string): int
  {
    var t := s[SpaceRun(s)..];
    if |t| > 0 && t[0] == '-' then -(Unsigned(t[1..]) as int)
    else if |t| > 0 && t[0] == '+' then Unsigned(t[1..])
    else Unsigned(t)
  }

  const LONG_MIN: int := -0x8000_0000_0000_0000
  const LONG_MAX: int := 0x7FFF_FFFF_FFFF_FFFF

  /** atoi(s) as glibc defines it, (int) strtol(s, NULL, 10): strtol clamps
      to the range of a 64-bit long, and the conversion to int keeps the
      low 32 bits. */
  function Atoi(s: string): (x: int)
    ensures -0x8000_0000 <= x < 0x8000_0000
  {
    var v := StrtolValue(s);
    Int32(if v > LONG_MAX then LONG_MAX else if v < LONG_MIN then LONG_MIN else v)
  }

  /** strnlen(): the characters before the first NUL. */
  function StrLen(s: string): (k: nat)
    ensures k <= |s|
  {
    if s == [] || s[0] == '\0' then 0 else 1 + StrLen(s[1..])
  }

  // Lines.

  /** Text holding neither a newline nor a NUL. */
  predicate Plain(s: string)
  {
    forall i :: 0 <= i < |s| ==> s[i] != '\n' && s[i] != '\0'
  }

  /** A line fgets(buf, 256, f) returns whole: plain text, then a newline,
      at most 255 characters in all. */
  predicate WholeLine(line: string)
  {
    1 <= |line| <= 255 && line[|line| - 1] == '\n' && Plain(line[..|line| - 1])
  }

  /** The index of the first newline, or the length. */
  function NewlineIndex(s: string): (k: nat)
    ensures k <= |s|
  {
    if s == [] || s[0] == '\n' then 0 else 1 + NewlineIndex(s[1..])
  }

  /** The length of what one fgets(buf, 256, f) call returns from the rest
      of the file: up to and including the first newline, at most 255
      characters. */
  function PieceLength(s: string): (p: nat)
    requires |s| > 0
    ensures 1 <= p <= |s| && p <= 255
  {
    var k := NewlineIndex(s) + 1;
    if k > |s| then (if |s| > 255 then 255 else |s|) else if k > 255 then 255 else k
  }

  /** What successive fgets calls return until the end of the file. */
  function Pieces(s: string): seq<string>
    decreases |s|
  {
    if s == [] then [] else [s[..PieceLength(s)]] + Pieces(s[PieceLength(s)..])
  }

  /** The text of lines written one after another. */
  function Concat(lines: seq<string>): string
  {
    if lines == [] then [] else lines[0] + Concat(lines[1..])
  }

  lemma {:induction false} ConcatAppend(lines: seq<string>, line: string)
    ensures Concat(lines + [line]) == Concat(lines) + line
  {
    if lines != [] {
      assert (lines + [line])[1..] == lines[1..] + [line];
      ConcatAppend(lines[1..], line);
    }
  }

  lemma ConcatThree(lines: seq<string>, a: string, b: string, c: string)
    ensures Concat(lines + [a, b, c]) == Concat(lines) + a + b + c
  {
    ConcatAppend(lines, a);
    ConcatAppend(lines + [a], b);
    ConcatAppend(lines + [a] + [b], c);
    assert lines + [a] + [b] + [c] == lines + [a, b, c];
  }

  /** The newline that ends a whole line is the first one. */
  lemma {:induction false} NewlineEndsLine(line: string, rest: string)
    requires WholeLine(line)
    ensures NewlineIndex(line + rest) == |line| - 1
    decreases |line|
  {
    if |line| > 1 {
      assert (line + rest)[1..] == line[1..] + rest;
      assert line[1..][..|line| - 2] == line[1..|line| - 1];
      NewlineEndsLine(line[1..], rest);
    }
  }

  /** fgets gives back, one by one, the whole lines a text was written as. */
  lemma {:induction false} PiecesOfLines(lines: seq<string>)
    requires forall i :: 0 <= i < |lines| ==> WholeLine(lines[i])
    ensures Pieces(Concat(lines)) == lines
  {
    if lines != [] {
      var s := Concat(lines);
      NewlineEndsLine(lines[0], Concat(lines[1..]));
      assert PieceLength(s) == |lines[0]|;
      assert s[..|lines[0]|] == lines[0] && s[|lines[0]|..] == Concat(lines[1..]);
      PiecesOfLines(lines[1..]);
    }
  }

  /** A text without NUL is as long as strnlen says. */
  lemma {:induction false} StrLenOfPlain(s: string)
    requires forall i :: 0 <= i < |s| ==> s[i] != '\0'
    ensures StrLen(s) == |s|
  {
    if s != [] {
      StrLenOfPlain(s[1..]);
    }
  }

  // Numbers written and read back.

  lemma {:induction false} DigitsValue(n: nat)
    ensures DigitValue(Digits(n)) == n
  {
    if n >= 10 {
      var s := Digits(n);
      assert s[..|s| - 1] == Digits(n / 10);
      DigitsValue(n / 10);
    }
  }

  /** The digits of a number below 10^10 are at most ten. */
  lemma {:induction false} DigitsLength(n: nat, k: nat)
    requires n < Power10(k)
    ensures |Digits(n)| <= k + 1 && (k > 0 ==> |Digits(n)| <= k)
  {
    if n >= 10 {
      assert k > 1;
      DigitsLength(n / 10, k - 1);
    }
  }

  function Power10(k: nat): (p: nat)
    ensures p >= 1
  {
    if k == 0 then 1 else 10 * Power10(k - 1)
  }

  lemma {:induction false} DigitRunOf(d: string, rest: string)
    requires forall i :: 0 <= i < |d| ==> IsDigit(d[i])
    requires rest == [] || !IsDigit(rest[0])
    ensures DigitRun(d + rest) == |d|
  {
    if d != [] {
      assert (d + rest)[1..] == d[1..] + rest;
      DigitRunOf(d[1..], rest);
    }
  }

  lemma UnsignedOfDigits(d: string, rest: string)
    requires forall i :: 0 <= i < |d| ==> IsDigit(d[i])
    requires rest == [] || !IsDigit(rest[0])
    ensures Unsigned(d + rest) == DigitValue(d)
  {
    DigitRunOf(d, rest);
    assert (d + rest)[..|d|] == d;
  }

  /** strtol reads a run of digits followed by something else as the
      number the digits spell. */
  lemma StrtolOfDigits(d: string, rest: string)
    requires 1 <= |d| && forall i :: 0 <= i < |d| ==> IsDigit(d[i])
    requires rest == [] || !IsDigit(rest[0])
    ensures StrtolValue(d + rest) == DigitValue(d)
  {
    var s := d + rest;
    assert IsDigit(s[0]) && !IsSpace(s[0]);
    assert SpaceRun(s) == 0;
    assert s[0..] == s;
    UnsignedOfDigits(d, rest);
    assert StrtolValue(s) == Unsigned(s);
  }

  /** ... and a minus sign, digits and something else as its negation. */
  lemma StrtolOfNegative(d: string, rest: string)
    requires 1 <= |d| && forall i :: 0 <= i < |d| ==> IsDigit(d[i])
    requires rest == [] || !IsDigit(rest[0])
    ensures StrtolValue("-" + d + rest) == -(DigitValue(d) as int)
  {
    var s := ['-'] + (d + rest);
    assert s == "-" + d + rest;
    assert s[0] == '-' && !IsSpace(s[0]);
    assert SpaceRun(s) == 0;
    assert s[0..] == s && s[1..] == d + rest;
    UnsignedOfDigits(d, rest);
    assert StrtolValue(s) == -(Unsigned(s[1..]) as int);
  }

  /** strtol reads back what %d or %ld wrote, whatever follows that is not
      a digit. */
  lemma StrtolOfDecimal(x: int, rest: string)
    requires rest == [] || !IsDigit(rest[0])
    ensures StrtolValue(Decimal(x) + rest) == x
  {
    if x < 0 {
      DigitsValue(-x);
      StrtolOfNegative(Digits(-x), rest);
    } else {
      DigitsValue(x);
      StrtolOfDigits(Digits(x), rest);
    }
  }

  /** atoi reads back what %d wrote for any int, whatever follows that is
      not a digit. */
  lemma AtoiOfDecimal(x: int, rest: string)
    requires -0x8000_0000 <= x < 0x8000_0000
    requires rest == [] || !IsDigit(rest[0])
    ensures Atoi(Decimal(x) + rest) == x
  {
    StrtolOfDecimal(x, rest);
  }

  // The file SaveProject writes.

  /** The two comment lines and the blank line the file starts with,
      the comment lines kept as short pieces. */
  const SAVED_1: string := "# This configuration "
  const SAVED_2: string := "file is completely "
  const SAVED_3: string := "overwritten each time "
  const SAVED_4: string := "the project is saved"
  const EDIT_1: string := "# Do not manually edit "
  const EDIT_2: string := "this file whilst "
  const EDIT_3: string := "multijack is using "
  const EDIT_4: string := "this project."
  const SAVED_NOTE: string := SAVED_1 + SAVED_2 + SAVED_3 + SAVED_4 + "\n"
  const EDIT_NOTE: string := EDIT_1 + EDIT_2 + EDIT_3 + EDIT_4 + "\n"
  const PREAMBLE: seq<string> := [SAVED_NOTE, EDIT_NOTE, "\n"]

  /** A muted leg is written as 0, an open one as 1. */
  function Flag(muted: bool): char
  {
    if muted then '0' else '1'
  }

  /** The level line of track i, "%02dV=%d". */
  function LevelLine(i: nat, level: int): string
  {
    TwoDigits(i) + ['V', '='] + Decimal(level) + "\n"
  }

  /** The mute line of leg `key` ('L' or 'R') of track i, "%02dL=%s". */
  function MuteLine(i: nat, key: char, muted: bool): string
  {
    TwoDigits(i) + [key, '='] + [Flag(muted)] + "\n"
  }

  /** The three lines of track i: level, A-leg mute, B-leg mute. */
  function TrackLines(i: nat, t: Track): seq<string>
  {
    [LevelLine(i, t.monMix), MuteLine(i, 'L', t.muteA), MuteLine(i, 'R', t.muteB)]
  }

  /** The lines of the first k tracks. */
  function TracksLines(tracks: seq<Track>, k: nat): seq<string>
    requires k <= |tracks|
  {
    if k == 0 then [] else TracksLines(tracks, k - 1) + TrackLines(k - 1, tracks[k - 1])
  }

  function PositionLine(head: int): string
  {
    "Pos=" + Decimal(head) + "\n"
  }

  function ConfigLines(tracks: seq<Track>, head: int): seq<string>
  {
    PREAMBLE + TracksLines(tracks, |tracks|) + [PositionLine(head)]
  }

  /** The whole configuration file for these tracks and this head position. */
  function ConfigText(tracks: seq<Track>, head: int): string
  {
    Concat(ConfigLines(tracks, head))
  }

  // The reader.

  /** The track number LoadProject reads from the first two characters,
      (c0 - '0') * 10 + (c1 - '0') taken as unsigned. */
  function Channel(line: string): word
    requires |line| >= 2
  {
    Uint32((SignedChar(line[0]) - '0' as int) * 10 + (SignedChar(line[1]) - '0' as int))
  }

  /** The setting a line of at least five characters makes on its track:
      'V' sets the level to the number after the '=', 'L' and 'R' mute
      their leg unless the fifth character is '1'. */
  function Setting(t: Track, line: string): Track
    requires |line| >= 5
  {
    if line[2] == 'V' then t.(monMix := Atoi(line[4..]))
    else if line[2] == 'L' then t.(muteA := line[4] != '1')
    else if line[2] == 'R' then t.(muteB := line[4] != '1')
    else t
  }

  /** The tracks and head position after one line is read: lines shorter
      than five characters are skipped; a line whose track number names a
      track sets it; a line beginning "Pos=" sets the head position. */
  function ApplyLine(tracks: seq<Track>, head: int, line: string): (r: (seq<Track>, int))
    ensures |r.0| == |tracks|
  {
    if StrLen(line) < 5 then (tracks, head)
    else
      var c := Channel(line);
      var t := if c < |tracks| then tracks[c := Setting(tracks[c], line)] else tracks;
      (t, if line[..4] == "Pos=" then Atoi(line[4..]) else head)
  }

  /** The tracks and head position after the lines are read in order. */
  function ApplyLines(tracks: seq<Track>, head: int, lines: seq<string>): (r: (seq<Track>, int))
    ensures |r.0| == |tracks|
  {
    if lines == [] then (tracks, head)
    else
      var r := ApplyLines(tracks, head, lines[..|lines| - 1]);
      ApplyLine(r.0, r.1, lines[|lines| - 1])
  }

  /** Reading two runs of lines is reading the first, then the second. */
  lemma {:induction false} ApplyLinesAppend(tracks: seq<Track>, head: int, a: seq<string>, b: seq<string>)
    ensures var r := ApplyLines(tracks, head, a);
      ApplyLines(tracks, head, a + b) == ApplyLines(r.0, r.1, b)
    decreases |b|
  {
    if b != [] {
      assert (a + b)[..|a + b| - 1] == a + b[..|b| - 1];
      ApplyLinesAppend(tracks, head, a, b[..|b| - 1]);
    } else {
      assert a + b == a;
    }
  }

  /** Reading a configuration changes the levels and mutes only, never the
      number of tracks nor their recording flags. */
  lemma {:induction false} ApplyLinesKeepsRecording(tracks: seq<Track>, head: int, lines: seq<string>)
    ensures var r := ApplyLines(tracks, head, lines);
      |r.0| == |tracks| && forall i :: 0 <= i < |tracks| ==> r.0[i].recording == tracks[i].recording
    decreases |lines|
  {
    if lines != [] {
      ApplyLinesKeepsRecording(tracks, head, lines[..|lines| - 1]);
    }
  }

  /** `current` with the level and the mutes of the first k saved tracks. */
  function Restored(current: seq<Track>, saved: seq<Track>, k: nat): (r: seq<Track>)
    requires |current| == |saved| && k <= |saved|
    ensures |r| == |current|
  {
    if k == 0 then current
    else
      var p := Restored(current, saved, k - 1);
      p[k - 1 := p[k - 1].(monMix := saved[k - 1].monMix, muteA := saved[k - 1].muteA, muteB := saved[k - 1].muteB)]
  }

  /** The first k tracks take their level and mutes from `saved`, and the
      rest are as they were. */
  lemma {:induction false} RestoredAt(current: seq<Track>, saved: seq<Track>, k: nat)
    requires |current| == |saved| && k <= |saved|
    ensures forall i :: 0 <= i < |current| ==>
      Restored(current, saved, k)[i]
        == (if i < k then current[i].(monMix := saved[i].monMix, muteA := saved[i].muteA, muteB := saved[i].muteB)
            else current[i])
  {
    if k > 0 {
      RestoredAt(current, saved, k - 1);
    }
  }

  // Reading back what was written.

  /** A line of plain text, ended by its newline, is whole and strnlen
      sees all of it. */
  lemma PlainLine(body: string)
    requires Plain(body) && |body| <= 254
    ensures WholeLine(body + "\n") && StrLen(body + "\n") == |body| + 1
  {
    var line := body + "\n";
    assert line[..|line| - 1] == body;
    assert forall i :: 0 <= i < |line| ==> line[i] != '\0' by {
      forall i | 0 <= i < |line| ensures line[i] != '\0' {
        if i < |body| {
          assert line[i] == body[i];
        }
      }
    }
    StrLenOfPlain(line);
  }

  /** A comment line ("# " and text) is whole and changes nothing. */
  lemma CommentSkipped(body: string, tracks: seq<Track>, head: int)
    requires Plain(body) && 4 <= |body| <= 254 && body[0] == '#' && body[1] == ' '
    requires |tracks| <= 100
    ensures WholeLine(body + "\n") && ApplyLine(tracks, head, body + "\n") == (tracks, head)
  {
    var line := body + "\n";
    PlainLine(body);
    assert line[0] == '#' && line[1] == ' ';
    assert Channel(line) == TWO32 - 146;
    assert line[..4] != "Pos=" by {
      assert line[..4][0] == '#';
    }
  }

  lemma SavedPieces()
    ensures Plain(SAVED_1) && Plain(SAVED_2) && Plain(SAVED_3) && Plain(SAVED_4)
    ensures |SAVED_1| == 21 && SAVED_1[0] == '#' && SAVED_1[1] == ' '
    ensures |SAVED_2 + SAVED_3 + SAVED_4| == 61
  {
  }

  lemma EditPieces()
    ensures Plain(EDIT_1) && Plain(EDIT_2) && Plain(EDIT_3) && Plain(EDIT_4)
    ensures |EDIT_1| == 23 && EDIT_1[0] == '#' && EDIT_1[1] == ' '
    ensures |EDIT_2 + EDIT_3 + EDIT_4| == 49
  {
  }

  /** A comment line made of plain pieces. */
  lemma CommentOfPieces(a: string, b: string, c: string, d: string, tracks: seq<Track>, head: int)
    requires Plain(a) && Plain(b) && Plain(c) && Plain(d)
    requires 4 <= |a| && a[0] == '#' && a[1] == ' ' && |a + b + c + d| <= 254
    requires |tracks| <= 100
    ensures WholeLine(a + b + c + d + "\n") && ApplyLine(tracks, head, a + b + c + d + "\n") == (tracks, head)
  {
    var body := a + b + c + d;
    assert Plain(body) by {
      forall i | 0 <= i < |body| ensures body[i] != '\n' && body[i] != '\0' {
        if i < |a| {
          assert body[i] == a[i];
        } else if i < |a + b| {
          assert body[i] == b[i - |a|];
        } else if i < |a + b + c| {
          assert body[i] == c[i - |a + b|];
        } else {
          assert body[i] == d[i - |a + b + c|];
        }
      }
    }
    CommentSkipped(body, tracks, head);
  }

  /** The two comment lines and the blank line are whole lines that change
      nothing. */
  lemma PreambleSkipped(tracks: seq<Track>, head: int)
    requires |tracks| <= 100
    ensures forall i :: 0 <= i < |PREAMBLE| ==> WholeLine(PREAMBLE[i])
    ensures ApplyLines(tracks, head, PREAMBLE) == (tracks, head)
  {
    SavedPieces();
    EditPieces();
    CommentOfPieces(SAVED_1, SAVED_2, SAVED_3, SAVED_4, tracks, head);
    CommentOfPieces(EDIT_1, EDIT_2, EDIT_3, EDIT_4, tracks, head);
    PlainLine([]);
    assert [] + "\n" == "\n";
    SkippedLines(tracks, head, PREAMBLE);
  }

  lemma ApplyLinesSnoc(tracks: seq<Track>, head: int, lines: seq<string>, line: string)
    ensures var r := ApplyLines(tracks, head, lines);
      ApplyLines(tracks, head, lines + [line]) == ApplyLine(r.0, r.1, line)
  {
    assert (lines + [line])[..|lines|] == lines;
  }

  /** Three lines read one after another, each leaving the head as it is. */
  lemma ApplyThreeSteps(tracks: seq<Track>, head: int, lines: seq<string>, t1: seq<Track>, t2: seq<Track>, t3: seq<Track>)
    requires |lines| == 3
    requires ApplyLine(tracks, head, lines[0]) == (t1, head)
    requires ApplyLine(t1, head, lines[1]) == (t2, head)
    requires ApplyLine(t2, head, lines[2]) == (t3, head)
    ensures ApplyLines(tracks, head, lines) == (t3, head)
  {
    assert lines[..2][..1] == [lines[0]] && [lines[0]][..0] == [];
    assert ApplyLines(tracks, head, [lines[0]]) == (t1, head);
    assert ApplyLines(tracks, head, lines[..2]) == (t2, head);
  }

  /** Lines that each change nothing change nothing together. */
  lemma {:induction false} SkippedLines(tracks: seq<Track>, head: int, lines: seq<string>)
    requires forall i :: 0 <= i < |lines| ==> ApplyLine(tracks, head, lines[i]) == (tracks, head)
    ensures ApplyLines(tracks, head, lines) == (tracks, head)
  {
    if lines != [] {
      SkippedLines(tracks, head, lines[..|lines| - 1]);
    }
  }

  /** A track number below 100 written with %02d is two digits that read
      back as the number. */
  lemma TwoDigitsChannel(i: nat)
    requires i < 100
    ensures var d := TwoDigits(i);
      |d| == 2 && IsDigit(d[0]) && IsDigit(d[1])
      && (SignedChar(d[0]) - '0' as int) * 10 + (SignedChar(d[1]) - '0' as int) == i
  {
    var q, r := i / 10, i % 10;
    assert i == 10 * q + r && q < 10;
    if i >= 10 {
      assert Digits(q) == [DigitChar(q)];
      assert TwoDigits(i) == [DigitChar(q), DigitChar(r)];
    } else {
      assert TwoDigits(i) == [DigitChar(0), DigitChar(r)];
    }
    DigitPair(q, r);
  }

  /** Two digits read as a track number. */
  lemma DigitPair(q: nat, r: nat)
    requires q < 10 && r < 10
    ensures (SignedChar(DigitChar(q)) - '0' as int) * 10 + (SignedChar(DigitChar(r)) - '0' as int) == 10 * q + r
  {
    assert SignedChar(DigitChar(q)) == '0' as int + q;
    assert SignedChar(DigitChar(r)) == '0' as int + r;
  }

  /** A line of track i, its number written as the digits d, is whole and
      strnlen sees all of it. */
  lemma TrackLineWhole(d: string, key: char, value: string)
    requires |d| == 2 && IsDigit(d[0]) && IsDigit(d[1])
    requires key == 'V' || key == 'L' || key == 'R'
    requires 1 <= |value| <= 11 && Plain(value)
    ensures WholeLine(d + [key, '='] + value + "\n")
    ensures StrLen(d + [key, '='] + value + "\n") == |d + [key, '='] + value + "\n"|
  {
    var body := d + [key, '='] + value;
    assert Plain(body) by {
      forall j | 0 <= j < |body| ensures body[j] != '\n' && body[j] != '\0' {
        if j >= 4 {
          assert body[j] == value[j - 4];
        }
      }
    }
    PlainLine(body);
  }

  /** A line of track i, its number written as the digits d, sets that
      track's field. */
  lemma TrackLine(i: nat, d: string, key: char, value: string, tracks: seq<Track>, head: int)
    requires i < |tracks| <= 100
    requires |d| == 2 && IsDigit(d[0]) && IsDigit(d[1])
    requires (SignedChar(d[0]) - '0' as int) * 10 + (SignedChar(d[1]) - '0' as int) == i
    requires key == 'V' || key == 'L' || key == 'R'
    requires 1 <= |value| <= 11 && Plain(value)
    ensures var line := d + [key, '='] + value + "\n";
      ApplyLine(tracks, head, line) == (tracks[i := Setting(tracks[i], line)], head)
      && line[2] == key && line[4..] == value + "\n"
  {
    var line := d + [key, '='] + value + "\n";
    TrackLineWhole(d, key, value);
    assert line[0] == d[0] && line[1] == d[1] && line[2] == key;
    assert Channel(line) == i;
    assert line[..4] != "Pos=" by {
      assert line[..4][0] == d[0];
    }
    assert line[4..] == value + "\n";
  }

  lemma DecimalIsPlain(x: int)
    requires -0x8000_0000 <= x < 0x8000_0000
    ensures 1 <= |Decimal(x)| <= 11 && Plain(Decimal(x))
  {
    assert Power10(10) == 10_000_000_000 by {
      assert Power10(2) == 100;
      assert Power10(5) == 100_000;
    }
    DigitsLength(if x < 0 then -x else x, 10);
  }

  /** The three lines of a saved track are whole. */
  lemma TrackLinesWhole(i: nat, t: Track)
    requires i < 100 && -0x8000_0000 <= t.monMix < 0x8000_0000
    ensures forall j :: 0 <= j < 3 ==> WholeLine(TrackLines(i, t)[j])
  {
    TwoDigitsChannel(i);
    DecimalIsPlain(t.monMix);
    TrackLineWhole(TwoDigits(i), 'V', Decimal(t.monMix));
    TrackLineWhole(TwoDigits(i), 'L', [Flag(t.muteA)]);
    TrackLineWhole(TwoDigits(i), 'R', [Flag(t.muteB)]);
  }

  /** The level line of track i sets the track's level. */
  lemma LevelLineRead(i: nat, level: int, tracks: seq<Track>, head: int)
    requires i < |tracks| <= 100 && -0x8000_0000 <= level < 0x8000_0000
    ensures ApplyLine(tracks, head, LevelLine(i, level)) == (tracks[i := tracks[i].(monMix := level)], head)
  {
    TwoDigitsChannel(i);
    DecimalIsPlain(level);
    AtoiOfDecimal(level, "\n");
    TrackLine(i, TwoDigits(i), 'V', Decimal(level), tracks, head);
  }

  /** The mute line of a leg of track i sets that leg's mute. */
  lemma MuteLineRead(i: nat, key: char, muted: bool, tracks: seq<Track>, head: int)
    requires i < |tracks| <= 100 && (key == 'L' || key == 'R')
    ensures ApplyLine(tracks, head, MuteLine(i, key, muted))
      == (tracks[i := if key == 'L' then tracks[i].(muteA := muted) else tracks[i].(muteB := muted)], head)
  {
    TwoDigitsChannel(i);
    TrackLine(i, TwoDigits(i), key, [Flag(muted)], tracks, head);
  }

  /** The three lines of a saved track restore its level and mutes. */
  lemma TrackLinesRestore(i: nat, t: Track, tracks: seq<Track>, head: int)
    requires i < |tracks| <= 100 && -0x8000_0000 <= t.monMix < 0x8000_0000
    ensures ApplyLines(tracks, head, TrackLines(i, t))
      == (tracks[i := tracks[i].(monMix := t.monMix, muteA := t.muteA, muteB := t.muteB)], head)
  {
    var lines := TrackLines(i, t);
    var t1 := tracks[i := tracks[i].(monMix := t.monMix)];
    var t2 := t1[i := t1[i].(muteA := t.muteA)];
    var t3 := t2[i := t2[i].(muteB := t.muteB)];
    LevelLineRead(i, t.monMix, tracks, head);
    MuteLineRead(i, 'L', t.muteA, t1, head);
    MuteLineRead(i, 'R', t.muteB, t2, head);
    ApplyThreeSteps(tracks, head, lines, t1, t2, t3);
    var x := tracks[i].(monMix := t.monMix, muteA := t.muteA, muteB := t.muteB);
    assert t2[i].(muteB := t.muteB) == x;
    SameIndexUpdates(tracks, i, tracks[i].(monMix := t.monMix), t1[i].(muteA := t.muteA), x);
  }

  lemma SameIndexUpdates(s: seq<Track>, i: nat, a: Track, b: Track, c: Track)
    requires i < |s|
    ensures s[i := a][i := b][i := c] == s[i := c]
  {
  }

  /** The lines of the saved tracks are all whole. */
  lemma {:induction false} TracksLinesWhole(saved: seq<Track>, k: nat)
    requires |saved| <= 100 && k <= |saved|
    requires forall i :: 0 <= i < |saved| ==> -0x8000_0000 <= saved[i].monMix < 0x8000_0000
    ensures forall j :: 0 <= j < |TracksLines(saved, k)| ==> WholeLine(TracksLines(saved, k)[j])
  {
    if k > 0 {
      TracksLinesWhole(saved, k - 1);
      TrackLinesWhole(k - 1, saved[k - 1]);
      var a := TracksLines(saved, k - 1);
      var b := TrackLines(k - 1, saved[k - 1]);
      forall j | 0 <= j < |a + b| ensures WholeLine((a + b)[j]) {
        if j >= |a| {
          assert (a + b)[j] == b[j - |a|];
        } else {
          assert (a + b)[j] == a[j];
        }
      }
    }
  }

  /** Reading a run of lines and then another. */
  lemma ApplyLinesThen(tracks: seq<Track>, head: int, a: seq<string>, b: seq<string>, mid: seq<Track>, last: seq<Track>)
    requires ApplyLines(tracks, head, a) == (mid, head) && ApplyLines(mid, head, b) == (last, head)
    ensures ApplyLines(tracks, head, a + b) == (last, head)
  {
    ApplyLinesAppend(tracks, head, a, b);
  }

  /** Reading the lines of the first k saved tracks restores their levels
      and mutes. */
  lemma {:induction false} TracksLinesRestore(saved: seq<Track>, current: seq<Track>, head: int, k: nat)
    requires |saved| == |current| <= 100 && k <= |saved|
    requires forall i :: 0 <= i < |saved| ==> -0x8000_0000 <= saved[i].monMix < 0x8000_0000
    ensures ApplyLines(current, head, TracksLines(saved, k)) == (Restored(current, saved, k), head)
  {
    if k > 0 {
      TracksLinesRestore(saved, current, head, k - 1);
      TracksLinesStep(saved, current, head, k);
    }
  }

  /** The lines of track k - 1, read after those of the tracks before it,
      restore that track too. */
  lemma TracksLinesStep(saved: seq<Track>, current: seq<Track>, head: int, k: nat)
    requires |saved| == |current| <= 100 && 0 < k <= |saved|
    requires -0x8000_0000 <= saved[k - 1].monMix < 0x8000_0000
    requires ApplyLines(current, head, TracksLines(saved, k - 1)) == (Restored(current, saved, k - 1), head)
    ensures ApplyLines(current, head, TracksLines(saved, k)) == (Restored(current, saved, k), head)
  {
    NextTrackRestored(saved, current, head, k);
    ApplyLinesThen(current, head, TracksLines(saved, k - 1), TrackLines(k - 1, saved[k - 1]),
                   Restored(current, saved, k - 1), Restored(current, saved, k));
  }

  /** The lines of track k - 1 take the first k - 1 restored tracks to the
      first k. */
  lemma NextTrackRestored(saved: seq<Track>, current: seq<Track>, head: int, k: nat)
    requires |saved| == |current| <= 100 && 0 < k <= |saved|
    requires -0x8000_0000 <= saved[k - 1].monMix < 0x8000_0000
    ensures ApplyLines(Restored(current, saved, k - 1), head, TrackLines(k - 1, saved[k - 1]))
      == (Restored(current, saved, k), head)
  {
    TrackLinesRestore(k - 1, saved[k - 1], Restored(current, saved, k - 1), head);
  }

  /** The position line is whole and sets the head position. */
  lemma PositionLineRead(tracks: seq<Track>, head0: int, head: int)
    requires |tracks| <= 100 && -0x8000_0000 <= head < 0x8000_0000
    ensures WholeLine(PositionLine(head))
    ensures ApplyLine(tracks, head0, PositionLine(head)) == (tracks, head)
  {
    var value := Decimal(head);
    var body := "Pos=" + value;
    var line := body + "\n";
    DecimalIsPlain(head);
    assert Plain(body) by {
      forall j | 0 <= j < |body| ensures body[j] != '\n' && body[j] != '\0' {
        if j >= 4 {
          assert body[j] == value[j - 4];
        }
      }
    }
    PlainLine(body);
    assert line[0] == 'P' && line[1] == 'o';
    assert Channel(line) == 383;
    assert line[..4] == "Pos=" && line[4..] == value + "\n";
    AtoiOfDecimal(head, "\n");
  }

  /** Saving and loading a project gives every track back its level and
      the mutes of its legs, and the head its position, when the file is
      read into as many tracks as were saved (at most 100, the track
      numbers being two digits) and every number fits an int. The
      recording flags are not part of the file and stay as they were. */
  lemma {:induction false} ConfigRoundTrip(saved: seq<Track>, head: int, current: seq<Track>, head0: int)
    requires |saved| == |current| <= 100
    requires forall i :: 0 <= i < |saved| ==> -0x8000_0000 <= saved[i].monMix < 0x8000_0000
    requires -0x8000_0000 <= head < 0x8000_0000
    ensures var r := ApplyLines(current, head0, Pieces(ConfigText(saved, head)));
      r.1 == head && |r.0| == |current|
      && forall i :: 0 <= i < |current| ==>
           r.0[i] == current[i].(monMix := saved[i].monMix, muteA := saved[i].muteA, muteB := saved[i].muteB)
  {
    var lines := ConfigLines(saved, head);
    var middle := TracksLines(saved, |saved|);
    var restored := Restored(current, saved, |saved|);
    PreambleSkipped(current, head0);
    TracksLinesRestore(saved, current, head0, |saved|);
    TracksLinesWhole(saved, |saved|);
    PositionLineRead(restored, head0, head);
    forall j | 0 <= j < |lines| ensures WholeLine(lines[j]) {
      if j < 3 {
        assert lines[j] == PREAMBLE[j];
      } else if j < 3 + |middle| {
        assert lines[j] == middle[j - 3];
      }
    }
    PiecesOfLines(lines);
    ApplyLinesThen(current, head0, PREAMBLE, middle, current, restored);
    ApplyLinesSnoc(current, head0, PREAMBLE + middle, PositionLine(head));
    RestoredAt(current, saved, |saved|);
  }
}
