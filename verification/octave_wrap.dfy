/**
 * The octave-wrapping note reader of the catalogue scripts: note names
 * such as "A G# A F# D E" become MIDI numbers that start in the octave of
 * middle C and move to the nearest octave whenever a step would otherwise
 * be wider than a tritone.
 */
module OctaveWrap {
  import opened Wrappers
  import opened Text
  import Melody

  /** `NOTE_TO_SEMITONE`: the semitone above C of each note spelling the scripts accept. */
  const NOTE_TO_SEMITONE: map<string, int> := map[
    "C" := 0, "C#" := 1, "Db" := 1,
    "D" := 2, "D#" := 3, "Eb" := 3,
    "E" := 4,
    "F" := 5, "F#" := 6, "Gb" := 6,
    "G" := 7, "G#" := 8, "Ab" := 8,
    "A" := 9, "A#" := 10, "Bb" := 10,
    "B" := 11]

  /** A semitone above C: a pitch class. */
  type PitchClass = x: int | 0 <= x < 12

  lemma NoteToSemitoneRange()
    ensures forall name :: name in NOTE_TO_SEMITONE ==> 0 <= NOTE_TO_SEMITONE[name] < 12
  {
  }

  /**
   * The semitone of one part: its first two characters when the second is
   * '#' or 'b', else its first character, looked up case-sensitively;
   * `None` for an empty part or an unknown name, which the reader skips.
   */
  function PartSemitone(part: string): (s: Option<int>)
    ensures s.Some? ==> 0 <= s.value < 12
  {
    if part == [] then None
    else
      var name := if |part| >= 2 && (part[1] == '#' || part[1] == 'b') then part[..2] else [part[0]];
      NoteToSemitoneRange();
      if name in NOTE_TO_SEMITONE then Some(NOTE_TO_SEMITONE[name]) else None
  }

  /** The semitones of the parts the reader keeps, in order. */
  function KnownSemitones(parts: seq<string>): (sems: seq<PitchClass>)
    ensures |sems| <= |parts|
  {
    if parts == [] then []
    else
      var rest := KnownSemitones(parts[..|parts| - 1]);
      match PartSemitone(parts[|parts| - 1])
      case Some(s) => rest + [s]
      case None => rest
  }

  /**
   * The step from one note to the next for a change `d` of semitone: the
   * change itself up to a tritone, else the same pitch class an octave
   * nearer.
   */
  function Smooth(d: int): (step: int)
    requires -12 < d < 12
    ensures -6 <= step <= 6
    ensures step == d || step == d + 12 || step == d - 12
  {
    if d < -6 then d + 12 else if d > 6 then d - 12 else d
  }

  /**
   * Note i of the melody the reader makes of a list of semitones: the
   * first at 60 + its semitone, and each later one a smoothed step from
   * the one before.
   */
  function NoteAt(sems: seq<PitchClass>, i: nat): int
    requires i < |sems|
  {
    if i == 0 then 60 + sems[0] as int
    else NoteAt(sems, i - 1) + Smooth(sems[i] as int - sems[i - 1])
  }

  /** The whole melody of a list of semitones. */
  function SmoothMelody(sems: seq<PitchClass>): (notes: seq<int>)
    ensures |notes| == |sems|
  {
    seq(|sems|, i requires 0 <= i < |sems| => NoteAt(sems, i))
  }

  /** Element i of the melody in terms of element i − 1. */
  lemma SmoothMelodyStep(sems: seq<PitchClass>, i: nat)
    requires 0 < i < |sems|
    ensures SmoothMelody(sems)[i] == SmoothMelody(sems)[i - 1] + Smooth(sems[i] as int - sems[i - 1])
  {
    assert SmoothMelody(sems)[i] == NoteAt(sems, i);
    assert SmoothMelody(sems)[i - 1] == NoteAt(sems, i - 1);
  }

  /** Note i depends on the semitones up to i only. */
  lemma {:induction false} NoteAtAgree(a: seq<PitchClass>, b: seq<PitchClass>, i: nat)
    requires i < |a| && i < |b| && a[..i + 1] == b[..i + 1]
    ensures NoteAt(a, i) == NoteAt(b, i)
  {
    assert a[i] == a[..i + 1][i] == b[..i + 1][i] == b[i];
    if i > 0 {
      assert a[i - 1] == a[..i + 1][i - 1] == b[..i + 1][i - 1] == b[i - 1];
      assert a[..i] == a[..i + 1][..i] == b[..i + 1][..i] == b[..i];
      NoteAtAgree(a, b, i - 1);
    }
  }

  /** The melody of a prefix of the semitones is the prefix of the melody. */
  lemma SmoothMelodyPrefix(sems: seq<PitchClass>, n: nat)
    requires n <= |sems|
    ensures SmoothMelody(sems[..n]) == SmoothMelody(sems)[..n]
  {
    forall i | 0 <= i < n
      ensures SmoothMelody(sems[..n])[i] == SmoothMelody(sems)[i]
    {
      assert sems[..n][..i + 1] == sems[..i + 1];
      NoteAtAgree(sems[..n], sems, i);
    }
  }

  /** The melody starts at 60 plus the first semitone. */
  lemma SmoothMelodyFirst(sems: seq<PitchClass>)
    requires sems != []
    ensures SmoothMelody(sems)[0] == 60 + sems[0] as int
  {
    SmoothMelodyPrefix(sems, 1);
    assert SmoothMelody(sems[..1]) == [60 + sems[0] as int];
  }

  /** Every note of the melody has its semitone as pitch class. */
  lemma {:induction false} SmoothMelodyPitchClass(sems: seq<PitchClass>, i: nat)
    requires i < |sems|
    ensures SmoothMelody(sems)[i] % 12 == sems[i]
  {
    var notes := SmoothMelody(sems);
    if i == 0 {
      SmoothMelodyFirst(sems);
    } else {
      SmoothMelodyPitchClass(sems, i - 1);
      SmoothMelodyStep(sems, i);
      var q := notes[i - 1] / 12;
      assert notes[i - 1] == 12 * q + sems[i - 1];
      var step := Smooth(sems[i] as int - sems[i - 1]);
      if step == sems[i] as int - sems[i - 1] {
        assert notes[i] == 12 * q + sems[i];
      } else if step == sems[i] as int - sems[i - 1] + 12 {
        assert notes[i] == 12 * (q + 1) + sems[i];
      } else {
        assert notes[i] == 12 * (q - 1) + sems[i];
      }
    }
  }

  /**
   * The melody's first note is 60 plus its semitone, every note has its
   * semitone as pitch class, and no two neighbours are more than a tritone
   * apart.
   */
  lemma SmoothMelodyProperties(sems: seq<PitchClass>)
    ensures sems != [] ==> 60 <= SmoothMelody(sems)[0] < 72 && SmoothMelody(sems)[0] == 60 + sems[0] as int
    ensures forall i :: 0 <= i < |sems| ==> SmoothMelody(sems)[i] % 12 == sems[i]
    ensures forall i :: 0 < i < |sems| ==> -6 <= SmoothMelody(sems)[i] - SmoothMelody(sems)[i - 1] <= 6
  {
    if sems != [] {
      SmoothMelodyFirst(sems);
    }
    forall i | 0 <= i < |sems|
      ensures SmoothMelody(sems)[i] % 12 == sems[i]
    {
      SmoothMelodyPitchClass(sems, i);
    }
    forall i | 0 < i < |sems|
      ensures -6 <= SmoothMelody(sems)[i] - SmoothMelody(sems)[i - 1] <= 6
    {
      SmoothMelodyStep(sems, i);
    }
  }

  /** The intervals of the melody are the smoothed semitone changes. */
  lemma SmoothMelodyIntervals(sems: seq<PitchClass>)
    ensures |Melody.Intervals(SmoothMelody(sems))| == if |sems| < 2 then 0 else |sems| - 1
    ensures forall i :: 0 <= i < |sems| - 1 ==>
      Melody.Intervals(SmoothMelody(sems))[i] == Smooth(sems[i + 1] as int - sems[i])
  {
    var notes := SmoothMelody(sems);
    Melody.IntervalsShape(notes);
    forall i | 0 <= i < |sems| - 1
      ensures Melody.Intervals(notes)[i] == Smooth(sems[i + 1] as int - sems[i])
    {
      SmoothMelodyStep(sems, i + 1);
    }
  }

  /** One more semitone adds one smoothed step to the melody. */
  lemma SmoothMelodyAppend(sems: seq<PitchClass>, s: PitchClass)
    ensures sems == [] ==> SmoothMelody(sems + [s]) == [60 + s as int]
    ensures sems != [] ==>
      SmoothMelody(sems + [s]) == SmoothMelody(sems) + [SmoothMelody(sems)[|sems| - 1] + Smooth(s as int - sems[|sems| - 1])]
  {
    var t := sems + [s];
    assert t[..|sems|] == sems;
    SmoothMelodyPrefix(t, |sems|);
    if sems != [] {
      SmoothMelodyStep(t, |sems|);
      assert SmoothMelody(t) == SmoothMelody(t)[..|sems|] + [SmoothMelody(t)[|sems|]];
    }
  }

  /** One more part adds its semitone to the kept ones when its name is known. */
  lemma KnownSemitonesStep(parts: seq<string>, i: nat)
    requires i < |parts|
    ensures KnownSemitones(parts[..i + 1])
      == KnownSemitones(parts[..i]) + (if PartSemitone(parts[i]).Some? then [PartSemitone(parts[i]).value] else [])
  {
    assert parts[..i + 1][..i] == parts[..i];
  }

  /**
   * What the reader knows after some parts: `notes` is the melody of the
   * kept semitones, `last` the last kept semitone, and the last note lies
   * in `octave`; before any note the octave is still 4.
   */
  ghost predicate Reading(sems: seq<PitchClass>, notes: seq<int>, octave: int, last: Option<int>)
  {
    && notes == SmoothMelody(sems)
    && (last.None? ==> sems == [] && octave == 4)
    && (last.Some? ==> sems != [] && last.value == sems[|sems| - 1]
                       && notes[|notes| - 1] == 60 + (octave - 4) * 12 + last.value)
  }

  /** Placing one more semitone as `PlaceNote` does keeps the reader's state. */
  lemma ReadingExtends(sems: seq<PitchClass>, notes: seq<int>, octave: int, last: Option<int>, s: PitchClass, octave': int, midi: int)
    requires Reading(sems, notes, octave, last)
    requires midi == 60 + (octave' - 4) * 12 + s
    requires last.None? ==> octave' == octave
    requires last.Some? ==> midi == 60 + (octave - 4) * 12 + last.value + Smooth(s - last.value)
    ensures Reading(sems + [s], notes + [midi], octave', Some(s))
  {
    SmoothMelodyAppend(sems, s);
  }

  /**
   * The shared loop of both `parse_notes`: the octave moves up when the
   * semitone falls by more than a tritone and down when it rises by more,
   * and each kept part is written in the current octave.
   */
  method ReadParts(parts: seq<string>) returns (notes: seq<int>)
    ensures notes == SmoothMelody(KnownSemitones(parts))
  {
    notes := [];
    var currentOctave := 4;
    var lastSemitone: Option<int> := None;
    ghost var sems: seq<PitchClass> := [];
    for i := 0 to |parts|
      invariant sems == KnownSemitones(parts[..i])
      invariant Reading(sems, notes, currentOctave, lastSemitone)
    {
      KnownSemitonesStep(parts, i);
      var semitone := PartSemitone(parts[i]);
      if semitone.Some? {
        var s: PitchClass := semitone.value;
        var octave, midi := PlaceNote(currentOctave, lastSemitone, s);
        ReadingExtends(sems, notes, currentOctave, lastSemitone, s, octave, midi);
        notes, currentOctave, lastSemitone := notes + [midi], octave, Some(s);
        sems := sems + [s];
      }
    }
    assert parts[..|parts|] == parts;
  }

  /**
   * One step of the loop: the octave moves up when the semitone falls by
   * more than a tritone from the last one and down when it rises by more;
   * the note is the semitone in the resulting octave, a smoothed step from
   * the last note.
   */
  method PlaceNote(currentOctave: int, lastSemitone: Option<int>, semitone: int) returns (octave: int, midi: int)
    requires 0 <= semitone < 12 && (lastSemitone.Some? ==> 0 <= lastSemitone.value < 12)
    ensures midi == 60 + (octave - 4) * 12 + semitone
    ensures lastSemitone.None? ==> octave == currentOctave
    ensures lastSemitone.Some? ==>
      midi == 60 + (currentOctave - 4) * 12 + lastSemitone.value + Smooth(semitone - lastSemitone.value)
  {
    octave := currentOctave;
    if lastSemitone.Some? {
      var diff := semitone - lastSemitone.value;
      if diff < -6 {
        octave := octave + 1;
      } else if diff > 6 {
        octave := octave - 1;
      }
    }
    midi := 60 + (octave - 4) * 12 + semitone;
  }

  /** The parts `fix_all_melodies.parse_notes` reads: backticks removed, then split on whitespace. */
  function FixScriptParts(noteString: string): seq<string>
  {
    SplitWhitespace(RemoveChar(noteString, '`'))
  }

  /** The parts `add_recognition_songs.parse_notes` reads: backticks, bar lines and plus signs removed first. */
  function RecognitionScriptParts(noteString: string): seq<string>
  {
    SplitWhitespace(RemoveChar(RemoveChar(RemoveChar(noteString, '`'), '|'), '+'))
  }

  /** `parse_notes` of `fix_all_melodies.py`. */
  method ParseNotesFix(noteString: string) returns (notes: seq<int>)
    ensures notes == SmoothMelody(KnownSemitones(FixScriptParts(noteString)))
  {
    notes := ReadParts(FixScriptParts(noteString));
  }

  /** `parse_notes` of `add_recognition_songs.py`. */
  method ParseNotesRecognition(noteString: string) returns (notes: seq<int>)
    ensures notes == SmoothMelody(KnownSemitones(RecognitionScriptParts(noteString)))
  {
    notes := ReadParts(RecognitionScriptParts(noteString));
  }

  /** A recognition-only catalogue entry. */
  datatype RecognitionSong = RecognitionSong(notes: seq<int>, intervals: seq<int>, tempo: int, key: string)

  /** Fewest notes a song needs to be added for recognition. */
  const MIN_RECOGNITION_NOTES := 4

  /**
   * The admission step of `add_recognition_songs`: a song whose notes
   * parse to fewer than four notes is skipped; otherwise it is stored with
   * its intervals, of which there are then at least three.
   */
  method AdmitSong(noteString: string, tempo: int, key: string) returns (song: Option<RecognitionSong>)
    ensures var notes := SmoothMelody(KnownSemitones(RecognitionScriptParts(noteString)));
      && (song.Some? <==> |notes| >= MIN_RECOGNITION_NOTES)
      && (song.Some? ==> song.value == RecognitionSong(notes, Melody.Intervals(notes), tempo, key))
    ensures song.Some? ==> |song.value.intervals| >= MIN_RECOGNITION_NOTES - 1
  {
    var notes := ParseNotesRecognition(noteString);
    if |notes| < MIN_RECOGNITION_NOTES {
      return None;
    }
    var intervals := Melody.CalculateIntervals(notes);
    song := Some(RecognitionSong(notes, intervals, tempo, key));
  }
}
