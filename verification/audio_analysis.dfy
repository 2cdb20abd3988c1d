/**
 * The pure helpers of the audio analysis service: reducing polyphonic
 * transcriptions to one melody line, deriving pitch and time intervals,
 * and cutting a recognition pattern down to its first fifty intervals.
 * The transcription itself (audio decoding, pitch detection) is an input.
 */
module AudioAnalysis {
  import opened Numeric
  import opened Melody
  import SongRecognition

  /** One transcribed note: onset and duration in seconds. */
  datatype ExtractedNote = ExtractedNote(midiNote: int, startTime: real, duration: real, velocity: int)

  /** What the transcription produced for one recording. */
  datatype ExtractionResult = ExtractionResult(
    notes: seq<ExtractedNote>,
    tempo: int,
    duration: real,
    key: string,
    intervals: seq<int>,
    timeIntervals: seq<int>)

  /** Notes starting less than this many seconds after a group's first onset join the group. */
  const MELODY_TIME_THRESHOLD := 0.1

  /** Intervals kept in a recognition pattern. */
  const MAX_PATTERN_INTERVALS := 50

  function Pitches(notes: seq<ExtractedNote>): (r: seq<int>)
    ensures |r| == |notes| && forall i :: 0 <= i < |notes| ==> r[i] == notes[i].midiNote
  {
    seq(|notes|, i requires 0 <= i < |notes| => notes[i].midiNote)
  }

  // ---------------------------------------------------------------------
  // Melody line
  // ---------------------------------------------------------------------

  /**
   * The end of the onset group opened by `notes[i]`, scanning from `j`:
   * it stops at the first note starting `threshold` or more after `notes[i]`.
   */
  function GroupEnd(notes: seq<ExtractedNote>, i: nat, j: nat, threshold: real): (e: nat)
    requires i < j <= |notes|
    decreases |notes| - j
    ensures j <= e <= |notes|
    ensures forall k :: j <= k < e ==> notes[k].startTime - notes[i].startTime < threshold
    ensures e < |notes| ==> notes[e].startTime - notes[i].startTime >= threshold
  {
    if j < |notes| && notes[j].startTime - notes[i].startTime < threshold then GroupEnd(notes, i, j + 1, threshold)
    else j
  }

  /** Python's `max(group, key=midi_note)`: the first note of highest pitch. */
  function Highest(group: seq<ExtractedNote>): (h: ExtractedNote)
    requires group != []
    ensures h in group
    ensures forall k :: 0 <= k < |group| ==> group[k].midiNote <= h.midiNote
  {
    if |group| == 1 then group[0]
    else
      var rest := Highest(group[1..]);
      if rest.midiNote > group[0].midiNote then rest else group[0]
  }

  /** An earlier note of the same highest pitch wins. */
  lemma {:induction false} HighestIsFirst(group: seq<ExtractedNote>, k: nat)
    requires k < |group| && group[k].midiNote == Highest(group).midiNote
    ensures exists m :: 0 <= m <= k && group[m] == Highest(group)
  {
    if |group| > 1 && Highest(group[1..]).midiNote > group[0].midiNote {
      assert k > 0;
      HighestIsFirst(group[1..], k - 1);
      var m :| 0 <= m <= k - 1 && group[1..][m] == Highest(group[1..]);
      assert group[m + 1] == Highest(group);
    } else {
      assert group[0] == Highest(group);
    }
  }

  /** The specification of `_extract_melody_line` from position i on: one highest note per onset group. */
  function MelodyLine(notes: seq<ExtractedNote>, threshold: real, i: nat): seq<ExtractedNote>
    requires i <= |notes|
    decreases |notes| - i
  {
    if i == |notes| then []
    else
      var e := GroupEnd(notes, i, i + 1, threshold);
      [Highest(notes[i..e])] + MelodyLine(notes, threshold, e)
  }

  /** Where each group starts. */
  function GroupStarts(notes: seq<ExtractedNote>, threshold: real, i: nat): seq<nat>
    requires i <= |notes|
    decreases |notes| - i
  {
    if i == |notes| then [] else [i] + GroupStarts(notes, threshold, GroupEnd(notes, i, i + 1, threshold))
  }

  /** Where group k ends: where group k + 1 starts, or the end of the input. */
  function NextStart(n: nat, starts: seq<nat>, k: nat): nat
    requires k < |starts|
  {
    if k + 1 < |starts| then starts[k + 1] else n
  }

  /** One output note per group, so the melody is empty only for an empty input and never longer than it. */
  lemma {:induction false} MelodyLineLength(notes: seq<ExtractedNote>, threshold: real, i: nat)
    requires i <= |notes|
    decreases |notes| - i
    ensures |MelodyLine(notes, threshold, i)| == |GroupStarts(notes, threshold, i)| <= |notes| - i
    ensures MelodyLine(notes, threshold, i) == [] <==> i == |notes|
    ensures GroupStarts(notes, threshold, i) != [] ==> GroupStarts(notes, threshold, i)[0] == i
  {
    if i < |notes| {
      MelodyLineLength(notes, threshold, GroupEnd(notes, i, i + 1, threshold));
    }
  }

  /**
   * Group k of `starts` is a non-empty run of `notes` that ends at its
   * `GroupEnd`, and `line[k]` is its highest note.
   */
  ghost predicate IsGroup(notes: seq<ExtractedNote>, threshold: real, starts: seq<nat>, line: seq<ExtractedNote>, k: nat)
  {
    && k < |starts| && k < |line|
    && starts[k] < NextStart(|notes|, starts, k) <= |notes|
    && NextStart(|notes|, starts, k) == GroupEnd(notes, starts[k], starts[k] + 1, threshold)
    && line[k] == Highest(notes[starts[k]..NextStart(|notes|, starts, k)])
  }

  /** Group k is a non-empty run ending at its `GroupEnd`, and output note k is its highest note. */
  lemma {:induction false} GroupAt(notes: seq<ExtractedNote>, threshold: real, i: nat, k: nat)
    requires i <= |notes| && k < |GroupStarts(notes, threshold, i)|
    decreases |notes| - i, 1
    ensures i <= GroupStarts(notes, threshold, i)[k]
    ensures IsGroup(notes, threshold, GroupStarts(notes, threshold, i), MelodyLine(notes, threshold, i), k)
  {
    if k == 0 {
      MelodyLineLength(notes, threshold, i);
      GroupHead(notes, threshold, i);
      var starts, e := GroupStarts(notes, threshold, i), GroupEnd(notes, i, i + 1, threshold);
      assert notes[starts[0]..NextStart(|notes|, starts, 0)] == notes[i..e];
    } else {
      GroupAtLater(notes, threshold, i, k);
    }
  }

  /** `GroupAt` for k > 0: group k from i is group k - 1 from where the first group ends. */
  lemma {:induction false} GroupAtLater(notes: seq<ExtractedNote>, threshold: real, i: nat, k: nat)
    requires i <= |notes| && 0 < k < |GroupStarts(notes, threshold, i)|
    decreases |notes| - i, 0
    ensures i <= GroupStarts(notes, threshold, i)[k]
    ensures IsGroup(notes, threshold, GroupStarts(notes, threshold, i), MelodyLine(notes, threshold, i), k)
  {
    MelodyLineLength(notes, threshold, i);
    var e := GroupEnd(notes, i, i + 1, threshold);
    GroupStep(notes, threshold, i, k);
    GroupAt(notes, threshold, e, k - 1);
    GroupShift(notes, threshold, GroupStarts(notes, threshold, i), MelodyLine(notes, threshold, i),
      GroupStarts(notes, threshold, e), MelodyLine(notes, threshold, e), k);
  }

  /** The facts about group k - 1 of the rest carry over to group k of the whole. */
  lemma GroupShift(notes: seq<ExtractedNote>, threshold: real, starts: seq<nat>, line: seq<ExtractedNote>,
                   rest: seq<nat>, restLine: seq<ExtractedNote>, k: nat)
    requires 0 < k < |starts| && k < |line| && k - 1 < |rest| && k - 1 < |restLine|
    requires starts[k] == rest[k - 1] && line[k] == restLine[k - 1]
    requires NextStart(|notes|, starts, k) == NextStart(|notes|, rest, k - 1)
    requires IsGroup(notes, threshold, rest, restLine, k - 1)
    ensures IsGroup(notes, threshold, starts, line, k)
  {
  }

  /** The first group starts at i and runs to its `GroupEnd`; its highest note opens the melody. */
  lemma GroupHead(notes: seq<ExtractedNote>, threshold: real, i: nat)
    requires i < |notes|
    ensures var e := GroupEnd(notes, i, i + 1, threshold);
      var starts := GroupStarts(notes, threshold, i);
      && starts[0] == i
      && NextStart(|notes|, starts, 0) == e
      && MelodyLine(notes, threshold, i)[0] == Highest(notes[i..e])
  {
    var e := GroupEnd(notes, i, i + 1, threshold);
    MelodyLineLength(notes, threshold, e);
    var rest := GroupStarts(notes, threshold, e);
    assert GroupStarts(notes, threshold, i) == [i] + rest;
    if rest != [] {
      assert rest[0] == e;
    }
  }

  /** Group k from i is group k - 1 from where the first group ends. */
  lemma GroupStep(notes: seq<ExtractedNote>, threshold: real, i: nat, k: nat)
    requires i < |notes| && 0 < k < |GroupStarts(notes, threshold, i)|
    ensures var e := GroupEnd(notes, i, i + 1, threshold);
      var starts := GroupStarts(notes, threshold, i);
      var rest := GroupStarts(notes, threshold, e);
      && k - 1 < |rest|
      && starts[k] == rest[k - 1]
      && NextStart(|notes|, starts, k) == NextStart(|notes|, rest, k - 1)
      && (k - 1 < |MelodyLine(notes, threshold, e)| ==>
            MelodyLine(notes, threshold, i)[k] == MelodyLine(notes, threshold, e)[k - 1])
  {
    var e := GroupEnd(notes, i, i + 1, threshold);
    var rest := GroupStarts(notes, threshold, e);
    assert GroupStarts(notes, threshold, i) == [i] + rest;
    assert MelodyLine(notes, threshold, i) == [Highest(notes[i..e])] + MelodyLine(notes, threshold, e);
  }

  /**
   * The groups cut the input into consecutive non-empty runs, each ending
   * at its `GroupEnd`, and output note k is the highest note of run k.
   */
  lemma MelodyLineGroups(notes: seq<ExtractedNote>, threshold: real)
    ensures var starts := GroupStarts(notes, threshold, 0);
      var line := MelodyLine(notes, threshold, 0);
      && |line| == |starts| <= |notes|
      && (line == [] <==> notes == [])
      && (starts != [] ==> starts[0] == 0)
      && forall k :: 0 <= k < |starts| ==>
           && starts[k] < NextStart(|notes|, starts, k) <= |notes|
           && NextStart(|notes|, starts, k) == GroupEnd(notes, starts[k], starts[k] + 1, threshold)
           && line[k] == Highest(notes[starts[k]..NextStart(|notes|, starts, k)])
  {
    MelodyLineLength(notes, threshold, 0);
    var starts := GroupStarts(notes, threshold, 0);
    forall k | 0 <= k < |starts|
      ensures && starts[k] < NextStart(|notes|, starts, k) <= |notes|
              && NextStart(|notes|, starts, k) == GroupEnd(notes, starts[k], starts[k] + 1, threshold)
              && MelodyLine(notes, threshold, 0)[k] == Highest(notes[starts[k]..NextStart(|notes|, starts, k)])
    {
      GroupAt(notes, threshold, 0, k);
    }
  }

  /** The notes of the group opened by `notes[i]`, and where it ends. */
  method CollectGroup(notes: seq<ExtractedNote>, i: nat, timeThreshold: real) returns (group: seq<ExtractedNote>, j: nat)
    requires i < |notes|
    ensures j == GroupEnd(notes, i, i + 1, timeThreshold) && group == notes[i..j]
  {
    group := [notes[i]];
    j := i + 1;
    while j < |notes| && notes[j].startTime - notes[i].startTime < timeThreshold
      invariant i + 1 <= j <= |notes|
      invariant group == notes[i..j]
      invariant GroupEnd(notes, i, j, timeThreshold) == GroupEnd(notes, i, i + 1, timeThreshold)
      decreases |notes| - j
    {
      group := group + [notes[j]];
      j := j + 1;
    }
  }

  /** `_extract_melody_line`: walks the onset groups, keeping the highest note of each. */
  method ExtractMelodyLine(notes: seq<ExtractedNote>, timeThreshold: real) returns (melody: seq<ExtractedNote>)
    ensures melody == MelodyLine(notes, timeThreshold, 0)
    ensures |melody| <= |notes| && (melody == [] <==> notes == [])
  {
    MelodyLineLength(notes, timeThreshold, 0);
    if notes == [] {
      return [];
    }
    melody := [];
    var i := 0;
    while i < |notes|
      invariant 0 <= i <= |notes|
      invariant melody + MelodyLine(notes, timeThreshold, i) == MelodyLine(notes, timeThreshold, 0)
      decreases |notes| - i
    {
      var group, j := CollectGroup(notes, i, timeThreshold);
      melody := melody + [Highest(group)];
      i := if j > i + 1 then j else i + 1;
    }
  }

  // ---------------------------------------------------------------------
  // Pitch and time intervals
  // ---------------------------------------------------------------------

  /** `_calculate_intervals`: successive pitch differences of the notes. */
  method CalculateNoteIntervals(notes: seq<ExtractedNote>) returns (intervals: seq<int>)
    ensures intervals == Intervals(Pitches(notes))
    ensures |intervals| == if |notes| < 2 then 0 else |notes| - 1
  {
    IntervalsShape(Pitches(notes));
    if |notes| < 2 {
      return [];
    }
    intervals := [];
    for i := 1 to |notes|
      invariant |intervals| == i - 1
      invariant forall k :: 0 <= k < i - 1 ==> intervals[k] == notes[k + 1].midiNote - notes[k].midiNote
    {
      intervals := intervals + [notes[i].midiNote - notes[i - 1].midiNote];
    }
    var ps := Pitches(notes);
    forall k | 0 <= k < |intervals|
      ensures intervals[k] == Intervals(ps)[k]
    {
      assert ps[k] == notes[k].midiNote && ps[k + 1] == notes[k + 1].midiNote;
    }
  }

  /** Element k is the gap between onsets k and k + 1 in whole milliseconds, truncated. */
  function TimeIntervals(notes: seq<ExtractedNote>): (r: seq<int>)
    ensures |r| == if |notes| < 2 then 0 else |notes| - 1
    ensures forall k :: 0 <= k < |r| ==> r[k] == Trunc((notes[k + 1].startTime - notes[k].startTime) * 1000.0)
  {
    if |notes| < 2 then []
    else seq(|notes| - 1, k requires 0 <= k < |notes| - 1 => Trunc((notes[k + 1].startTime - notes[k].startTime) * 1000.0))
  }

  /** Onsets in order give no negative gaps, and onsets a millisecond or more apart give positive ones. */
  lemma TimeIntervalsOfSortedOnsets(notes: seq<ExtractedNote>)
    requires forall k :: 0 <= k < |notes| - 1 ==> notes[k].startTime <= notes[k + 1].startTime
    ensures forall k :: 0 <= k < |TimeIntervals(notes)| ==> TimeIntervals(notes)[k] >= 0
    ensures forall k :: 0 <= k < |TimeIntervals(notes)| && notes[k + 1].startTime - notes[k].startTime >= 0.001 ==>
      TimeIntervals(notes)[k] >= 1
  {
  }

  /** `_calculate_time_intervals`. */
  method CalculateTimeIntervals(notes: seq<ExtractedNote>) returns (timeIntervals: seq<int>)
    ensures timeIntervals == TimeIntervals(notes)
  {
    if |notes| < 2 {
      return [];
    }
    timeIntervals := [];
    for i := 1 to |notes|
      invariant |timeIntervals| == i - 1
      invariant forall k :: 0 <= k < i - 1 ==>
        timeIntervals[k] == Trunc((notes[k + 1].startTime - notes[k].startTime) * 1000.0)
    {
      timeIntervals := timeIntervals + [Trunc((notes[i].startTime - notes[i - 1].startTime) * 1000.0)];
    }
  }

  // ---------------------------------------------------------------------
  // Recognition pattern
  // ---------------------------------------------------------------------

  /** Python's `s[:n]`. */
  function Take<T>(s: seq<T>, n: nat): (r: seq<T>)
    ensures |r| == if |s| <= n then |s| else n
    ensures r <= s
  {
    if |s| <= n then s else s[..n]
  }

  datatype MelodyPattern = MelodyPattern(
    intervals: seq<int>,
    notes: seq<int>,
    timeIntervals: seq<int>,
    rhythm: seq<string>,
    tempo: int,
    key: string)

  /**
   * `create_melody_pattern`: the first fifty pitch and time intervals, the
   * pitches of the first fifty-one notes, and the rhythm categories of the
   * kept time intervals.
   */
  function CreateMelodyPattern(result: ExtractionResult): (p: MelodyPattern)
    ensures |p.intervals| <= MAX_PATTERN_INTERVALS && |p.timeIntervals| <= MAX_PATTERN_INTERVALS
    ensures |p.notes| <= MAX_PATTERN_INTERVALS + 1
    ensures |p.intervals| == if |result.intervals| <= MAX_PATTERN_INTERVALS then |result.intervals| else MAX_PATTERN_INTERVALS
    ensures |p.notes| == if |result.notes| <= MAX_PATTERN_INTERVALS + 1 then |result.notes| else MAX_PATTERN_INTERVALS + 1
    ensures p.intervals <= result.intervals && p.timeIntervals <= result.timeIntervals
    ensures p.notes <= Pitches(result.notes)
    ensures p.rhythm == SongRecognition.Rhythm(p.timeIntervals)
    ensures p.tempo == result.tempo && p.key == result.key
  {
    var times := Take(result.timeIntervals, MAX_PATTERN_INTERVALS);
    MelodyPattern(
      Take(result.intervals, MAX_PATTERN_INTERVALS),
      Pitches(Take(result.notes, MAX_PATTERN_INTERVALS + 1)),
      times,
      SongRecognition.Rhythm(times),
      result.tempo,
      result.key)
  }

  /**
   * When the result's intervals were derived from its notes, cutting both
   * keeps them consistent: the pattern's intervals are those of its notes.
   */
  lemma PatternIntervalsMatchNotes(result: ExtractionResult)
    requires result.intervals == Intervals(Pitches(result.notes))
    ensures CreateMelodyPattern(result).intervals == Intervals(CreateMelodyPattern(result).notes)
  {
    var ps := Pitches(result.notes);
    var p := CreateMelodyPattern(result);
    IntervalsShape(ps);
    if |ps| > MAX_PATTERN_INTERVALS + 1 {
      IntervalsPrefix(ps, MAX_PATTERN_INTERVALS);
      assert p.notes == ps[..MAX_PATTERN_INTERVALS + 1];
    } else {
      assert p.notes == ps;
    }
  }
}
