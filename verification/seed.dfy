/**
 * The helpers the seed data is written with: note names such as "C#" or
 * "Bb" become MIDI numbers, notation lines become note lists, and note
 * lists become tutorial timelines and recognition patterns.
 */
module Seed {
  import opened Wrappers
  import opened Text
  import opened Numeric
  import Melody

  /** `NOTE_MAP`: the semitone above C of each spelling of a note. */
  const NOTE_MAP: map<string, int> := map[
    "C" := 0, "C#" := 1, "Db" := 1,
    "D" := 2, "D#" := 3, "Eb" := 3,
    "E" := 4, "Fb" := 4, "E#" := 5,
    "F" := 5, "F#" := 6, "Gb" := 6,
    "G" := 7, "G#" := 8, "Ab" := 8,
    "A" := 9, "A#" := 10, "Bb" := 10,
    "B" := 11, "Cb" := 11, "B#" := 0]

  /** Every spelling names a semitone of one octave. */
  lemma NoteMapRange()
    ensures forall name :: name in NOTE_MAP ==> 0 <= NOTE_MAP[name] < 12
  {
  }

  /**
   * The spelling `parse_note_to_midi` looks up in an upper-cased note
   * string: the first two characters when the second is '#', the letter
   * with a flat when the second is 'B' (an upper-cased 'b'), else the
   * first character; the first character alone when that spelling is
   * unknown.
   */
  function NoteName(u: string): (name: string)
    requires u != []
    ensures name in NOTE_MAP || name == [u[0]]
  {
    var spelled :=
      if |u| >= 2 && u[1] == '#' then u[..2]
      else if |u| >= 2 && u[1] == 'B' then [u[0], 'b']
      else [u[0]];
    if spelled in NOTE_MAP then spelled else [u[0]]
  }

  /** The semitone of an upper-cased note string; `NOTE_MAP.get(name, 0)`. */
  function Semitone(u: string): (s: int)
    requires u != []
    ensures 0 <= s < 12
  {
    var name := NoteName(u);
    NoteMapRange();
    if name in NOTE_MAP then NOTE_MAP[name] else 0
  }

  /**
   * `parse_note_to_midi`: the note in the octave `defaultOctave`, where C4
   * is 60. The source raises on a string that is empty once stripped;
   * that is `None` here.
   */
  function ParseNoteToMidi(noteStr: string, defaultOctave: int): (r: Option<int>)
    ensures r.Some? <==> Strip(noteStr) != []
    ensures r.Some? ==> (defaultOctave + 1) * 12 <= r.value < (defaultOctave + 2) * 12
  {
    MidiOfUpper(Upper(Strip(noteStr)), defaultOctave)
  }

  /** The MIDI number of an upper-cased, stripped note string. */
  function MidiOfUpper(u: string, defaultOctave: int): (r: Option<int>)
    ensures r.Some? <==> u != []
    ensures r.Some? ==> (defaultOctave + 1) * 12 <= r.value < (defaultOctave + 2) * 12
  {
    if u == [] then None else Some((defaultOctave + 1) * 12 + Semitone(u))
  }

  /** A token with no whitespace is its own strip. */
  lemma StripWord(t: string)
    requires t != [] && !IsSpace(t[0]) && !IsSpace(t[|t| - 1])
    ensures Strip(t) == t
  {
    assert LStrip(t) == t;
  }

  /** The parser reads the letters A to G and their sharps and flats by `NOTE_MAP`, in the octave asked for. */
  lemma ParseSpellings(c: char, o: int)
    requires 'A' <= c <= 'G'
    ensures ParseNoteToMidi([c], o) == Some((o + 1) * 12 + NOTE_MAP[[c]])
    ensures ParseNoteToMidi([c, '#'], o) == Some((o + 1) * 12 + NOTE_MAP[[c, '#']])
    ensures ParseNoteToMidi([c, 'b'], o) == Some((o + 1) * 12 + NOTE_MAP[[c, 'b']])
  {
    StripWord([c]);
    StripWord([c, '#']);
    StripWord([c, 'b']);
    assert Upper([c]) == [c];
    assert Upper([c, '#']) == [c, '#'];
    assert Upper([c, 'b']) == [c, 'B'];
  }

  /** A sharp is one semitone above its letter and a flat one below, as pitch classes. */
  lemma AccidentalsAreSemitoneSteps(c: char)
    requires 'A' <= c <= 'G'
    ensures NOTE_MAP[[c, '#']] == (NOTE_MAP[[c]] + 1) % 12
    ensures NOTE_MAP[[c, 'b']] == (NOTE_MAP[[c]] + 11) % 12
    ensures 0 <= NOTE_MAP[[c]] < 12
    ensures NOTE_MAP[[c]] == 11 <==> c == 'B'
    ensures NOTE_MAP[[c]] == 0 <==> c == 'C'
  {
    if c == 'A' {
    } else if c == 'B' {
    } else if c == 'C' {
    } else if c == 'D' {
    } else if c == 'E' {
    } else if c == 'F' {
    } else {
      assert c == 'G';
    }
  }

  /**
   * A sharp or flat never leaves the octave number it is given: a sharp
   * reads one semitone up and a flat one down, except that "B#" is the C
   * at the bottom of B's octave, 11 below "B", and "Cb" the B at its top,
   * 11 above "C"; so "B#" with octave 4 reads as 60 and "Cb" as 71.
   */
  lemma AccidentalsStayInOctave(c: char, o: int)
    requires 'A' <= c <= 'G'
    ensures ParseNoteToMidi([c], o).Some? && ParseNoteToMidi([c, '#'], o).Some? && ParseNoteToMidi([c, 'b'], o).Some?
    ensures ParseNoteToMidi([c, '#'], o).value == ParseNoteToMidi([c], o).value + (if c == 'B' then -11 else 1)
    ensures ParseNoteToMidi([c, 'b'], o).value == ParseNoteToMidi([c], o).value + (if c == 'C' then 11 else -1)
  {
    ParseSpellings(c, o);
    AccidentalsAreSemitoneSteps(c);
    PitchClassSteps(NOTE_MAP[[c]]);
  }

  /** One semitone up or down within the twelve pitch classes. */
  lemma PitchClassSteps(x: int)
    requires 0 <= x < 12
    ensures (x + 1) % 12 == x + (if x == 11 then -11 else 1)
    ensures (x + 11) % 12 == x + (if x == 0 then 11 else -1)
  {
  }

  /** Upper-casing after lower-casing is upper-casing. */
  lemma UpperOfLower(t: string)
    ensures Upper(Lower(t)) == Upper(t)
  {
    var a := Upper(Lower(t));
    var b := Upper(t);
    forall i | 0 <= i < |t|
      ensures a[i] == b[i]
    {
      assert Lower(t)[i] == ToLower(t[i]);
    }
  }

  /** Upper-casing first makes the parser blind to case: "bb" reads as "Bb". */
  lemma ParseNoteIgnoresCase(t: string, o: int)
    requires t != [] && !IsSpace(t[0]) && !IsSpace(t[|t| - 1])
    ensures ParseNoteToMidi(Lower(t), o) == ParseNoteToMidi(t, o)
  {
    assert Upper(Strip(Lower(t))) == Upper(Strip(t)) by {
      StripWord(t);
      StripLowerWord(t);
      UpperOfLower(t);
    }
  }

  lemma StripLowerWord(t: string)
    requires t != [] && !IsSpace(t[0]) && !IsSpace(t[|t| - 1])
    ensures Strip(Lower(t)) == Lower(t)
  {
    var l := Lower(t);
    LowerIsNotSpace(t[0]);
    LowerIsNotSpace(t[|t| - 1]);
    assert l[0] == ToLower(t[0]) && l[|l| - 1] == ToLower(t[|t| - 1]);
    StripWord(l);
  }

  /** Lower-casing never turns a character into whitespace. */
  lemma LowerIsNotSpace(c: char)
    requires !IsSpace(c)
    ensures !IsSpace(ToLower(c))
  {
  }

  /** A token that starts with a note letter, as the notation reader requires. */
  predicate IsNoteToken(t: string) { t != [] && 'A' <= t[0] <= 'G' }

  /** A whitespace-free, non-empty token, as `str.split()` produces. */
  predicate IsWord(t: string) { t != [] && forall i :: 0 <= i < |t| ==> !IsSpace(t[i]) }

  /** The notes `parse_notation_line` reads from its tokens: one per token starting with 'A'..'G', in order. */
  function NotationNotes(tokens: seq<string>, o: int): (ns: seq<int>)
    requires forall t :: t in tokens ==> IsWord(t)
    ensures |ns| <= |tokens|
    ensures forall n :: n in ns ==> (o + 1) * 12 <= n < (o + 2) * 12
    ensures ns == [] <==> forall t :: t in tokens ==> !IsNoteToken(t)
  {
    if tokens == [] then []
    else
      var init := tokens[..|tokens| - 1];
      var t := tokens[|tokens| - 1];
      assert forall s :: s in init ==> s in tokens;
      assert t in tokens;
      var rest := NotationNotes(init, o);
      if IsNoteToken(t) then
        assert IsWord(t) && !IsSpace(t[|t| - 1]);
        StripWord(t);
        rest + [ParseNoteToMidi(t, o).value]
      else
        assert forall s :: s in tokens ==> s in init || s == t;
        rest
  }

  /** Notation tokens that do not start with an upper-case note letter (lower-case names too) are skipped. */
  lemma NotationSkipsOthers(tokens: seq<string>, t: string, o: int)
    requires forall s :: s in tokens ==> IsWord(s)
    requires IsWord(t) && !IsNoteToken(t)
    ensures NotationNotes(tokens + [t], o) == NotationNotes(tokens, o)
  {
    assert (tokens + [t])[..|tokens|] == tokens;
  }

  /** The notation reader's result for one more note token: the parsed note is appended. */
  lemma NotationAppendsNote(tokens: seq<string>, t: string, o: int)
    requires forall s :: s in tokens ==> IsWord(s)
    requires IsWord(t) && IsNoteToken(t)
    ensures NotationNotes(tokens + [t], o) == NotationNotes(tokens, o) + [ParseNoteToMidi(t, o).value]
  {
    assert (tokens + [t])[..|tokens|] == tokens;
  }

  /** `parse_notation_line`: split on whitespace, then parse each token that starts with a note letter. */
  method ParseNotationLine(line: string, o: int) returns (notes: seq<int>)
    ensures forall t :: t in SplitWhitespace(line) ==> IsWord(t)
    ensures notes == NotationNotes(SplitWhitespace(line), o)
  {
    var tokens := SplitWhitespace(line);
    TokensShape(line, IsSpace);
    notes := [];
    for i := 0 to |tokens|
      invariant notes == NotationNotes(tokens[..i], o)
    {
      var token := tokens[i];
      NotationStep(tokens, i, o);
      if 'A' <= token[0] <= 'G' {
        var midi := ParseNoteToMidi(token, o);
        notes := notes + [midi.value];
      }
    }
    assert tokens[..|tokens|] == tokens;
  }

  /** One token of the notation reader's loop: a note token adds its note, any other token nothing. */
  lemma NotationStep(tokens: seq<string>, i: nat, o: int)
    requires i < |tokens| && forall t :: t in tokens ==> IsWord(t)
    ensures ParseNoteToMidi(tokens[i], o).Some?
    ensures NotationNotes(tokens[..i + 1], o) ==
      NotationNotes(tokens[..i], o) + (if IsNoteToken(tokens[i]) then [ParseNoteToMidi(tokens[i], o).value] else [])
  {
    var t := tokens[i];
    assert tokens[..i + 1] == tokens[..i] + [t];
    assert forall s :: s in tokens[..i] ==> s in tokens;
    assert t in tokens;
    assert IsWord(t) && !IsSpace(t[|t| - 1]);
    StripWord(t);
    if IsNoteToken(t) {
      NotationAppendsNote(tokens[..i], t, o);
    } else {
      NotationSkipsOthers(tokens[..i], t, o);
    }
  }

  /** An entry of a tutorial timeline. */
  datatype TimedNote = TimedNote(midiNote: int, startTime: int, duration: int)

  /** `notes_to_tutorial_format`: note i starts at i·spacing and lasts spacing − 100 ms. */
  function NotesToTutorialFormat(notes: seq<int>, spacing: int): (r: seq<TimedNote>)
    ensures |r| == |notes|
    ensures forall i :: 0 <= i < |r| ==> r[i].midiNote == notes[i]
  {
    seq(|notes|, i requires 0 <= i < |notes| => TimedNote(notes[i], i * spacing, spacing - 100))
  }

  /** On an evenly spaced timeline every note ends 100 ms before the next one starts. */
  lemma EvenTimelineGaps(notes: seq<int>, spacing: int, i: nat)
    requires i + 1 < |notes|
    ensures NotesToTutorialFormat(notes, spacing)[i + 1].startTime
      == NotesToTutorialFormat(notes, spacing)[i].startTime + NotesToTutorialFormat(notes, spacing)[i].duration + 100
  {
  }

  /** Sum of the durations of `data`. */
  function TotalDuration(data: seq<(int, int)>): int
  {
    if data == [] then 0 else TotalDuration(data[..|data| - 1]) + data[|data| - 1].1
  }

  /** The played length of a note of `duration` ms: `int(duration * 0.9)`. */
  function SoundingLength(duration: int): (d: int)
    ensures duration >= 0 ==> 0 <= d <= duration
  {
    Trunc(duration as real * 0.9)
  }

  /**
   * `notes_with_durations_to_tutorial`: each note starts when all earlier
   * notes have run their full duration, and sounds for nine tenths of its
   * own.
   */
  function DurationTimeline(data: seq<(int, int)>): (r: seq<TimedNote>)
    ensures |r| == |data|
  {
    if data == [] then []
    else
      var init := data[..|data| - 1];
      var last := data[|data| - 1];
      DurationTimeline(init) + [TimedNote(last.0, TotalDuration(init), SoundingLength(last.1))]
  }

  /** Entry i of the timeline keeps note i, starts after the first i durations and sounds for nine tenths of its own. */
  lemma {:induction false} DurationTimelineAt(data: seq<(int, int)>, i: nat)
    requires i < |data|
    ensures DurationTimeline(data)[i] == TimedNote(data[i].0, TotalDuration(data[..i]), SoundingLength(data[i].1))
  {
    var init := data[..|data| - 1];
    if i < |init| {
      DurationTimelineAt(init, i);
      assert init[..i] == data[..i];
    } else {
      assert init == data[..i];
    }
  }

  /** The first note starts at 0 and each later one when its predecessor's full duration has passed. */
  lemma DurationTimelineSteps(data: seq<(int, int)>, i: nat)
    requires i + 1 < |data|
    ensures DurationTimeline(data)[0].startTime == 0
    ensures DurationTimeline(data)[i + 1].startTime == DurationTimeline(data)[i].startTime + data[i].1
  {
    DurationTimelineAt(data, 0);
    DurationTimelineAt(data, i);
    DurationTimelineAt(data, i + 1);
    assert data[..i + 1][..i] == data[..i];
  }

  /** With no negative duration, start times never decrease and no note sounds past the next one's start. */
  lemma {:induction false} DurationTimelineOrdered(data: seq<(int, int)>, i: nat, j: nat)
    requires forall k :: 0 <= k < |data| ==> data[k].1 >= 0
    requires i <= j < |data|
    ensures DurationTimeline(data)[i].startTime <= DurationTimeline(data)[j].startTime
    ensures i < j ==> DurationTimeline(data)[i].startTime + DurationTimeline(data)[i].duration <= DurationTimeline(data)[j].startTime
    decreases j - i
  {
    if i < j {
      DurationTimelineOrdered(data, i + 1, j);
      DurationTimelineSteps(data, i);
      DurationTimelineAt(data, i);
    }
  }

  /** Equal durations give the evenly spaced start times of `notes_to_tutorial_format`. */
  lemma {:induction false} EvenDurationsAreEvenlySpaced(data: seq<(int, int)>, spacing: int)
    requires forall k :: 0 <= k < |data| ==> data[k].1 == spacing
    ensures TotalDuration(data) == |data| * spacing
    ensures forall i :: 0 <= i < |data| ==>
      DurationTimeline(data)[i].startTime == NotesToTutorialFormat(Pitches(data), spacing)[i].startTime
  {
    EvenDurationsTotal(data, spacing);
    forall i | 0 <= i < |data|
      ensures DurationTimeline(data)[i].startTime == i * spacing
    {
      DurationTimelineAt(data, i);
      EvenDurationsTotal(data[..i], spacing);
    }
  }

  lemma {:induction false} EvenDurationsTotal(data: seq<(int, int)>, spacing: int)
    requires forall k :: 0 <= k < |data| ==> data[k].1 == spacing
    ensures TotalDuration(data) == |data| * spacing
  {
    if data != [] {
      EvenDurationsTotal(data[..|data| - 1], spacing);
    }
  }

  /** `notes_with_durations_to_tutorial`: the loop with its running `current_time`. */
  method NotesWithDurationsToTutorial(data: seq<(int, int)>) returns (result: seq<TimedNote>)
    ensures result == DurationTimeline(data)
  {
    result := [];
    var currentTime := 0;
    for i := 0 to |data|
      invariant result == DurationTimeline(data[..i])
      invariant currentTime == TotalDuration(data[..i])
    {
      var (midiNote, duration) := data[i];
      assert data[..i + 1][..i] == data[..i];
      result := result + [TimedNote(midiNote, currentTime, Trunc(duration as real * 0.9))];
      currentTime := currentTime + duration;
    }
    assert data[..|data|] == data;
  }

  /** The pitches of `(midi_note, duration_ms)` pairs. */
  function Pitches(data: seq<(int, int)>): (ns: seq<int>)
    ensures |ns| == |data| && forall i :: 0 <= i < |data| ==> ns[i] == data[i].0
  {
    seq(|data|, i requires 0 <= i < |data| => data[i].0)
  }

  /** The recognition pattern `create_melody_pattern` stores. */
  datatype SeedPattern = SeedPattern(intervals: seq<int>, notes: seq<int>, tempo: int, key: string)

  /** The recognition pattern keeps the first 20 notes. */
  const PATTERN_NOTES := 20

  /**
   * `create_melody_pattern`: the intervals of every note but only the
   * first 20 notes, so the stored notes' own intervals are a prefix of the
   * stored intervals.
   */
  method CreateMelodyPattern(data: seq<(int, int)>, tempo: int, key: string) returns (p: SeedPattern)
    ensures p.intervals == Melody.Intervals(Pitches(data))
    ensures |p.intervals| == if |data| < 2 then 0 else |data| - 1
    ensures |p.notes| == if |data| < PATTERN_NOTES then |data| else PATTERN_NOTES
    ensures p.notes == Pitches(data)[..|p.notes|]
    ensures p.notes != [] ==> Melody.Intervals(p.notes) == p.intervals[..|p.notes| - 1]
    ensures p.tempo == tempo && p.key == key
  {
    var midiNotes := Pitches(data);
    var intervals := Melody.CalculateIntervals(midiNotes);
    var kept := if |midiNotes| <= PATTERN_NOTES then midiNotes else midiNotes[..PATTERN_NOTES];
    assert kept == midiNotes[..|kept|];
    if kept != [] {
      Melody.IntervalsPrefix(midiNotes, |kept| - 1);
    }
    p := SeedPattern(intervals, kept, tempo, key);
  }
}
