/**
 * The tutorial timeline of the Bollywood catalogue seeder: one entry per
 * melody note, a beat of 60000 / tempo milliseconds apart, each sounding
 * for 80% of a beat.
 */
module SeedBollywood {
  import opened Numeric

  /** One entry of a seeded tutorial. */
  datatype TutorialEntry = TutorialEntry(midiNote: int, duration: int, time: int, index: int)

  /** Milliseconds per beat, `60000 / tempo`. */
  function Beat(tempo: int): (b: real)
    requires tempo != 0
    ensures tempo > 0 ==> b > 0.0
    ensures 0 < tempo <= 60000 ==> b >= 1.0
  {
    var t := tempo as real;
    var b := 60000.0 / t;
    assert b * t == 60000.0;
    assert 0.0 < t <= 60000.0 && b < 1.0 ==> b * t < t;
    b
  }

  /** Length of every entry: `int(beat * 0.8)`. */
  function EntryDuration(tempo: int): (d: int)
    requires tempo != 0
    ensures tempo > 0 ==> 0 <= d && d as real <= Beat(tempo) * 0.8
  {
    Trunc(Beat(tempo) * 0.8)
  }

  /** Where beat i starts: i beats added one after another, as the running start time is. */
  function BeatStart(i: nat, b: real): (t: real)
    ensures b >= 0.0 ==> t >= 0.0
  {
    if i == 0 then 0.0 else BeatStart(i - 1, b) + b
  }

  /** Summing beats is scaling: beat i starts at `i * b`. */
  lemma {:induction false} BeatStartIsProduct(i: nat, b: real)
    ensures BeatStart(i, b) == i as real * b
  {
    if i > 0 {
      BeatStartIsProduct(i - 1, b);
      assert (i - 1) as real * b + b == i as real * b;
    }
  }

  /** Beat j starts `j - i` beats after beat i. */
  lemma {:induction false} BeatStartSplit(i: nat, j: nat, b: real)
    requires i <= j
    ensures BeatStart(j, b) == BeatStart(i, b) + BeatStart(j - i, b)
    decreases j
  {
    if j > i {
      BeatStartSplit(i, j - 1, b);
    }
  }

  /** Entry i of the tutorial for `notes`: the note, at the truncated start of beat i. */
  function Entry(notes: seq<int>, tempo: int, i: nat): (e: TutorialEntry)
    requires tempo != 0 && i < |notes|
    ensures e.midiNote == notes[i] && e.index == i
    ensures tempo > 0 ==> 0 <= e.time && e.time as real <= BeatStart(i, Beat(tempo)) < e.time as real + 1.0
  {
    TutorialEntry(notes[i], EntryDuration(tempo), Trunc(BeatStart(i, Beat(tempo))), i)
  }

  /** The whole tutorial for `notes`. */
  function TutorialNotes(notes: seq<int>, tempo: int): (r: seq<TutorialEntry>)
    requires tempo != 0
    ensures |r| == |notes|
    ensures forall i :: 0 <= i < |r| ==> r[i].midiNote == notes[i] && r[i].index == i
    ensures forall i :: 0 <= i < |r| ==> r[i].duration == EntryDuration(tempo)
  {
    seq(|notes|, i requires 0 <= i < |notes| => Entry(notes, tempo, i))
  }

  /**
   * `create_tutorial_notes`: the loop keeps a running start time and adds
   * one beat after each note. A tempo of 0 raises in the source, so it is
   * excluded here.
   */
  method CreateTutorialNotes(notes: seq<int>, tempo: int) returns (entries: seq<TutorialEntry>)
    requires tempo != 0
    ensures entries == TutorialNotes(notes, tempo)
  {
    var beatDuration := 60000.0 / tempo as real;
    entries := [];
    var timeMs := 0.0;
    for i := 0 to |notes|
      invariant timeMs == BeatStart(i, beatDuration)
      invariant |entries| == i
      invariant forall k :: 0 <= k < i ==> entries[k] == Entry(notes, tempo, k)
    {
      entries := entries + [TutorialEntry(notes[i], Trunc(beatDuration * 0.8), Trunc(timeMs), i)];
      timeMs := timeMs + beatDuration;
    }
  }

  /** The first entry starts at time 0. */
  lemma TutorialStartsAtZero(notes: seq<int>, tempo: int)
    requires tempo != 0 && notes != []
    ensures TutorialNotes(notes, tempo)[0].time == 0
  {
  }

  /** `int(x) + int(y) <= int(x + y)` for non-negative x and y. */
  lemma TruncSuperadditive(x: real, y: real)
    requires x >= 0.0 && y >= 0.0
    ensures Trunc(x) + Trunc(y) <= Trunc(x + y)
  {
  }

  /** For a positive tempo, start times never decrease. */
  lemma TutorialTimesNondecreasing(notes: seq<int>, tempo: int, i: nat, j: nat)
    requires tempo > 0 && i <= j < |notes|
    ensures TutorialNotes(notes, tempo)[i].time <= TutorialNotes(notes, tempo)[j].time
  {
    var b := Beat(tempo);
    assert TutorialNotes(notes, tempo)[i] == Entry(notes, tempo, i);
    assert TutorialNotes(notes, tempo)[j] == Entry(notes, tempo, j);
    BeatStartSplit(i, j, b);
    TruncSuperadditive(BeatStart(i, b), BeatStart(j - i, b));
  }

  /**
   * For a positive tempo every entry has finished by the time the next one
   * starts, and when the beat is at least a millisecond (tempo at most
   * 60000) the start times strictly increase.
   */
  lemma TutorialEntriesDoNotOverlap(notes: seq<int>, tempo: int, i: nat)
    requires tempo > 0 && i + 1 < |notes|
    ensures TutorialNotes(notes, tempo)[i].time + TutorialNotes(notes, tempo)[i].duration
      <= TutorialNotes(notes, tempo)[i + 1].time
    ensures tempo <= 60000 ==> TutorialNotes(notes, tempo)[i].time < TutorialNotes(notes, tempo)[i + 1].time
  {
    var b := Beat(tempo);
    assert TutorialNotes(notes, tempo)[i] == Entry(notes, tempo, i);
    assert TutorialNotes(notes, tempo)[i + 1] == Entry(notes, tempo, i + 1);
    var x := BeatStart(i, b);
    assert BeatStart(i + 1, b) == x + b;
    TruncSuperadditive(x, b * 0.8);
    TruncSuperadditive(x + b * 0.8, b * 0.2);
    TruncSuperadditive(x, b);
  }
}
