/**
 * The note scoring engine: a played note is judged against the note the
 * tutorial expects at that point, and a finished session gets an overall
 * score, a letter grade and an encouraging message.
 */
module Scoring {
  import opened Wrappers
  import opened Numeric
  import Text

  datatype FeedbackType = Correct | WrongNote | Early | Late | Missed

  /** A note from the keyboard; `timestamp` is in milliseconds since the session started. */
  datatype NoteEvent = NoteEvent(midiNote: int, velocity: int, timestamp: real)

  /** A note of the tutorial; `startTime` and `duration` are in milliseconds. */
  datatype ExpectedNote = ExpectedNote(midiNote: int, startTime: real, duration: real, velocity: Option<int>)

  datatype NoteFeedback = NoteFeedback(
    feedbackType: FeedbackType,
    expectedNote: Option<int>,
    playedNote: int,
    timingDiffMs: real,
    scoreDelta: int,
    message: string)

  /** The default tolerance window when the application configures none. */
  const DEFAULT_TIMING_TOLERANCE_MS := 150
  const CORRECT_POINTS := 10
  const TIMING_ERROR_POINTS := 5
  const WRONG_NOTE_POINTS := 0

  /** Points a feedback of each kind is worth. */
  function Points(t: FeedbackType): int
  {
    match t
    case Correct => CORRECT_POINTS
    case Early => TIMING_ERROR_POINTS
    case Late => TIMING_ERROR_POINTS
    case WrongNote => WRONG_NOTE_POINTS
    case Missed => WRONG_NOTE_POINTS
  }

  const NOTE_NAMES: seq<string> := ["C", "C#", "D", "D#", "E", "F", "F#", "G", "G#", "A", "A#", "B"]

  /**
   * Scientific pitch name of a MIDI note, such as "C4" for 60. Python's
   * `//` and `%` round toward minus infinity, which for the divisor 12 is
   * what Dafny's `/` and `%` do too.
   */
  function MidiToNoteName(midiNote: int): string
  {
    NOTE_NAMES[midiNote % 12] + Text.IntToString(midiNote / 12 - 1)
  }

  /** The position of a pitch-class name in `NOTE_NAMES`. */
  function PitchClassOf(p: string): Option<int>
  {
    if p == "C" then Some(0) else if p == "C#" then Some(1) else if p == "D" then Some(2)
    else if p == "D#" then Some(3) else if p == "E" then Some(4) else if p == "F" then Some(5)
    else if p == "F#" then Some(6) else if p == "G" then Some(7) else if p == "G#" then Some(8)
    else if p == "A" then Some(9) else if p == "A#" then Some(10) else if p == "B" then Some(11)
    else None
  }

  /**
   * Reads a scientific pitch name back: a pitch class (a letter, with a
   * '#' when the second character is one) followed by an octave number.
   */
  function ParseNoteName(name: string): Option<int>
  {
    var n := if |name| >= 2 && name[1] == '#' then 2 else 1;
    if |name| < n then None
    else
      match (PitchClassOf(name[..n]), Text.ReadInt(name[n..]))
      case (Some(k), Some(octave)) => Some((octave + 1) * 12 + k)
      case _ => None
  }

  /** Every pitch-class name is found again at its own position, and is a letter with at most a '#' after it. */
  lemma PitchClassNames(k: int)
    requires 0 <= k < 12
    ensures PitchClassOf(NOTE_NAMES[k]) == Some(k)
    ensures 1 <= |NOTE_NAMES[k]| <= 2 && NOTE_NAMES[k][0] != '#'
    ensures |NOTE_NAMES[k]| == 2 ==> NOTE_NAMES[k][1] == '#'
  {
    assert k in {0, 1, 2, 3, 4, 5, 6, 7, 8, 9, 10, 11};
  }

  /** The name of a MIDI note reads back as that note. */
  lemma NoteNameRoundTrip(midiNote: int)
    ensures ParseNoteName(MidiToNoteName(midiNote)) == Some(midiNote)
  {
    var k := midiNote % 12;
    var octave := midiNote / 12 - 1;
    var p := NOTE_NAMES[k];
    var o := Text.IntToString(octave);
    var name := MidiToNoteName(midiNote);
    assert name == p + o;
    PitchClassNames(k);
    Text.IntRoundTrip(octave);
    assert name[..|p|] == p && name[|p|..] == o;
    if |p| == 1 {
      assert name[1] == o[0];
    }
  }

  /** Different MIDI notes have different names. */
  lemma MidiToNoteNameInjective(a: int, b: int)
    ensures MidiToNoteName(a) == MidiToNoteName(b) ==> a == b
  {
    NoteNameRoundTrip(a);
    NoteNameRoundTrip(b);
  }

  /** Middle C is "C4", the key above it "C#4", and MIDI note 0 is "C-1". */
  lemma MidiToNoteNameExamples()
    ensures MidiToNoteName(60) == "C4"
    ensures MidiToNoteName(61) == "C#4"
    ensures MidiToNoteName(0) == "C-1"
    ensures MidiToNoteName(69) == "A4"
  {
    assert Text.IntToString(4) == "4";
    assert Text.IntToString(-1) == "-1";
  }

  /**
   * Judges one played note. Without an expected note it is an extra note;
   * the right pitch within the tolerance is correct, the right pitch outside
   * it early or late, and anything else a wrong note. The next expected note
   * of the source's signature is never consulted and is not a parameter.
   */
  function EvaluateNote(played: NoteEvent, expected: Option<ExpectedNote>, toleranceMs: real): (f: NoteFeedback)
    ensures f.playedNote == played.midiNote
    ensures f.scoreDelta == Points(f.feedbackType)
    ensures f.feedbackType != Missed
    ensures expected.None? ==> f == NoteFeedback(WrongNote, None, played.midiNote, 0.0, 0, "Extra note played")
    ensures expected.Some? ==>
      && f.expectedNote == Some(expected.value.midiNote)
      && f.timingDiffMs == played.timestamp - expected.value.startTime
    ensures f.feedbackType == Correct <==>
      expected.Some? && played.midiNote == expected.value.midiNote && Abs(f.timingDiffMs) <= toleranceMs
    ensures f.feedbackType == Early <==>
      expected.Some? && played.midiNote == expected.value.midiNote
      && Abs(f.timingDiffMs) > toleranceMs && f.timingDiffMs < -toleranceMs
    ensures f.feedbackType == Late <==>
      expected.Some? && played.midiNote == expected.value.midiNote
      && Abs(f.timingDiffMs) > toleranceMs && f.timingDiffMs >= -toleranceMs && f.timingDiffMs > toleranceMs
    ensures f.feedbackType == Correct ==>
      && (f.message == "Perfect! \U{1F389}" <==> Abs(f.timingDiffMs) < 50.0)
      && (f.message == "Good!" <==> Abs(f.timingDiffMs) >= 50.0)
  {
    match expected
    case None => NoteFeedback(WrongNote, None, played.midiNote, 0.0, WRONG_NOTE_POINTS, "Extra note played")
    case Some(e) =>
      var diff := played.timestamp - e.startTime;
      var rightNote := played.midiNote == e.midiNote;
      if rightNote && Abs(diff) <= toleranceMs then
        NoteFeedback(Correct, Some(e.midiNote), played.midiNote, diff, CORRECT_POINTS,
          if Abs(diff) < 50.0 then "Perfect! \U{1F389}" else "Good!")
      else if rightNote && diff < -toleranceMs then
        NoteFeedback(Early, Some(e.midiNote), played.midiNote, diff, TIMING_ERROR_POINTS,
          "Too early (" + Text.IntToString(Trunc(Abs(diff))) + "ms)")
      else if rightNote && diff > toleranceMs then
        NoteFeedback(Late, Some(e.midiNote), played.midiNote, diff, TIMING_ERROR_POINTS,
          "Too late (" + Text.IntToString(Trunc(diff)) + "ms)")
      else
        NoteFeedback(WrongNote, Some(e.midiNote), played.midiNote, diff, WRONG_NOTE_POINTS,
          "Wrong note (expected " + MidiToNoteName(e.midiNote) + ")")
  }

  /** With a non-negative tolerance the right pitch is never a wrong note, and a wrong pitch never scores. */
  lemma RightPitchNeverWrong(played: NoteEvent, e: ExpectedNote, toleranceMs: real)
    requires toleranceMs >= 0.0
    ensures var f := EvaluateNote(played, Some(e), toleranceMs);
      (f.feedbackType == WrongNote <==> played.midiNote != e.midiNote)
      && (f.scoreDelta > 0 <==> played.midiNote == e.midiNote)
      && (f.scoreDelta == CORRECT_POINTS <==> f.feedbackType == Correct)
  {
  }

  /** Playing later never turns an on-time note early, nor a late note on time. */
  lemma LaterIsNeverEarlier(p: NoteEvent, q: NoteEvent, e: ExpectedNote, toleranceMs: real)
    requires p.midiNote == q.midiNote == e.midiNote && p.timestamp <= q.timestamp && toleranceMs >= 0.0
    ensures EvaluateNote(p, Some(e), toleranceMs).feedbackType == Late ==> EvaluateNote(q, Some(e), toleranceMs).feedbackType == Late
    ensures EvaluateNote(q, Some(e), toleranceMs).feedbackType == Early ==> EvaluateNote(p, Some(e), toleranceMs).feedbackType == Early
  {
  }

  datatype Grade = APlus | A | B | C | D | F | NotApplicable
  {
    function Label(): string
    {
      match this
      case APlus => "A+"
      case A => "A"
      case B => "B"
      case C => "C"
      case D => "D"
      case F => "F"
      case NotApplicable => "N/A"
    }

    /** Position in the ladder from F (0) to A+ (5). */
    function Rank(): nat
    {
      match this
      case APlus => 5
      case A => 4
      case B => 3
      case C => 2
      case D => 1
      case F => 0
      case NotApplicable => 0
    }
  }

  /** Letter grade of an overall score: steps of ten points from 50 (D) to 90 (A+). */
  function CalculateGrade(score: real): (g: Grade)
    ensures g != NotApplicable
    ensures g.Rank() == if score < 50.0 then 0 else if score >= 90.0 then 5 else (score.Floor - 40) / 10
  {
    if score >= 90.0 then APlus
    else if score >= 80.0 then A
    else if score >= 70.0 then B
    else if score >= 60.0 then C
    else if score >= 50.0 then D
    else F
  }

  /** A higher score never gets a lower grade. */
  lemma GradeMonotone(x: real, y: real)
    requires x <= y
    ensures CalculateGrade(x).Rank() <= CalculateGrade(y).Rank()
  {
    assert x.Floor <= y.Floor;
  }

  /** The encouraging message; the accuracy argument of the source is never consulted. */
  function ScoreMessage(score: real): (m: string)
    ensures m == MessageForGrade(CalculateGrade(score))
  {
    if score >= 90.0 then "Outstanding! You've mastered this! \U{1F31F}"
    else if score >= 80.0 then "Excellent work! Almost perfect! \U{1F389}"
    else if score >= 70.0 then "Good job! Keep practicing! \U{1F4AA}"
    else if score >= 60.0 then "Nice effort! A bit more practice will help."
    else if score >= 50.0 then "You're getting there! Try slowing down."
    else "Keep practicing! Try at a slower tempo."
  }

  /** The messages, one per grade, so that message and grade always agree. */
  function MessageForGrade(g: Grade): string
  {
    match g
    case APlus => "Outstanding! You've mastered this! \U{1F31F}"
    case A => "Excellent work! Almost perfect! \U{1F389}"
    case B => "Good job! Keep practicing! \U{1F4AA}"
    case C => "Nice effort! A bit more practice will help."
    case D => "You're getting there! Try slowing down."
    case F => "Keep practicing! Try at a slower tempo."
    case NotApplicable => "No notes to evaluate"
  }

  datatype Breakdown = Breakdown(correct: int, timingErrors: int, wrongNotes: int, totalExpected: int)

  datatype SessionScore = SessionScore(
    overallScore: int,
    accuracy: int,
    timing: int,
    grade: Grade,
    message: string,
    breakdown: Option<Breakdown>)

  /** Share of the expected notes hit correctly, in percent. */
  function AccuracyPercent(correct: int, totalExpected: int): real
    requires totalExpected != 0
  {
    correct as real / totalExpected as real * 100.0
  }

  /** Timing score in percent: a timing error earns half of a correct note; no attempts score 0. */
  function TimingPercent(correct: int, timingErrors: int, wrongNotes: int): real
  {
    var attempts := correct + timingErrors + wrongNotes;
    if attempts > 0 then (correct as real + timingErrors as real * 0.5) / attempts as real * 100.0 else 0.0
  }

  /** 70% accuracy, 30% timing. */
  function OverallPercent(correct: int, timingErrors: int, wrongNotes: int, totalExpected: int): real
    requires totalExpected != 0
  {
    AccuracyPercent(correct, totalExpected) * 0.7 + TimingPercent(correct, timingErrors, wrongNotes) * 0.3
  }

  /**
   * The score card of a session. Grade and message are taken from the
   * unrounded overall score; the three percentages are rounded half to even.
   */
  function CalculateSessionScore(correct: int, timingErrors: int, wrongNotes: int, totalExpected: int): (s: SessionScore)
    ensures totalExpected == 0 ==> s == SessionScore(0, 0, 0, NotApplicable, "No notes to evaluate", None)
    ensures totalExpected != 0 ==>
      && s.grade == CalculateGrade(OverallPercent(correct, timingErrors, wrongNotes, totalExpected))
      && s.message == MessageForGrade(s.grade)
      && s.breakdown == Some(Breakdown(correct, timingErrors, wrongNotes, totalExpected))
      && s.overallScore == RoundHalfEven(OverallPercent(correct, timingErrors, wrongNotes, totalExpected))
      && s.accuracy == RoundHalfEven(AccuracyPercent(correct, totalExpected))
      && s.timing == RoundHalfEven(TimingPercent(correct, timingErrors, wrongNotes))
  {
    if totalExpected == 0 then SessionScore(0, 0, 0, NotApplicable, "No notes to evaluate", None)
    else
      var accuracy := AccuracyPercent(correct, totalExpected);
      var timing := TimingPercent(correct, timingErrors, wrongNotes);
      var overall := accuracy * 0.7 + timing * 0.3;
      SessionScore(RoundHalfEven(overall), RoundHalfEven(accuracy), RoundHalfEven(timing),
        CalculateGrade(overall), ScoreMessage(overall), Some(Breakdown(correct, timingErrors, wrongNotes, totalExpected)))
  }

  /** For counts that a practice session can produce, every percentage lies between 0 and 100. */
  lemma SessionScoreBounds(correct: nat, timingErrors: nat, wrongNotes: nat, totalExpected: nat)
    requires correct <= totalExpected && totalExpected > 0
    ensures var s := CalculateSessionScore(correct, timingErrors, wrongNotes, totalExpected);
      0 <= s.accuracy <= 100 && 0 <= s.timing <= 100 && 0 <= s.overallScore <= 100
  {
    var acc := AccuracyPercent(correct, totalExpected);
    UnitRatio(correct as real, totalExpected as real);
    var attempts := correct + timingErrors + wrongNotes;
    var t := TimingPercent(correct, timingErrors, wrongNotes);
    if attempts > 0 {
      assert 0.0 <= correct as real + timingErrors as real * 0.5 <= attempts as real;
      UnitRatio(correct as real + timingErrors as real * 0.5, attempts as real);
    }
    assert 0.0 <= t <= 100.0;
    RoundBetween(acc, 0, 100);
    RoundBetween(t, 0, 100);
    RoundBetween(acc * 0.7 + t * 0.3, 0, 100);
  }

  /** Every expected note played correctly and nothing else: a perfect score and an A+. */
  lemma PerfectSession(n: nat)
    requires n > 0
    ensures CalculateSessionScore(n, 0, 0, n) ==
      SessionScore(100, 100, 100, APlus, MessageForGrade(APlus), Some(Breakdown(n, 0, 0, n)))
  {
    assert n as real / n as real == 1.0;
    assert (n as real + 0 as real * 0.5) / n as real == 1.0;
    RoundInteger(100);
  }

  /** Turning a wrong note into a correct one never lowers the overall score or the grade. */
  lemma FixingANoteNeverHurts(correct: nat, timingErrors: nat, wrongNotes: nat, totalExpected: nat)
    requires wrongNotes > 0 && totalExpected > 0
    ensures var before := CalculateSessionScore(correct, timingErrors, wrongNotes, totalExpected);
      var after := CalculateSessionScore(correct + 1, timingErrors, wrongNotes - 1, totalExpected);
      before.overallScore <= after.overallScore && before.grade.Rank() <= after.grade.Rank()
  {
    var attempts := correct + timingErrors + wrongNotes;
    var num := correct as real + timingErrors as real * 0.5;
    assert num / attempts as real <= (num + 1.0) / attempts as real;
    assert correct as real / totalExpected as real <= (correct + 1) as real / totalExpected as real;
    var x := OverallPercent(correct, timingErrors, wrongNotes, totalExpected);
    var y := OverallPercent(correct + 1, timingErrors, wrongNotes - 1, totalExpected);
    assert x <= y;
    RoundMonotone(x, y);
    GradeMonotone(x, y);
  }
}
