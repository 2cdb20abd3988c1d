/**
 * Live practice sessions: the service keeps each running session in
 * memory, judges every played note against the tutorial's next expected
 * note, keeps running counts, and on the end computes the session's
 * score card.
 */
module Practice {
  import opened Wrappers
  import opened Numeric
  import opened Scoring

  /** An expected note as the client sends it; absent optional keys are `None`. */
  datatype NoteInput = NoteInput(midiNote: int, startTime: real, duration: Option<real>, velocity: Option<int>)

  /** Duration assumed when a note does not give one. */
  const DEFAULT_NOTE_DURATION_MS := 500.0

  /** Tempo of a session when none is given. */
  const DEFAULT_TEMPO := 80

  /** One entry of a session's event log. */
  datatype LoggedEvent = LoggedEvent(
    timestamp: real,
    midiNote: int,
    velocity: int,
    expectedNote: Option<int>,
    feedback: FeedbackType,
    timingDiff: real)

  /** Number of logged events of one feedback kind. */
  function CountOf(events: seq<LoggedEvent>, t: FeedbackType): nat
  {
    if events == [] then 0
    else CountOf(events[..|events| - 1], t) + (if events[|events| - 1].feedback == t then 1 else 0)
  }

  /** Sum of the points of the logged events. */
  function ScoreOf(events: seq<LoggedEvent>): int
  {
    if events == [] then 0 else ScoreOf(events[..|events| - 1]) + Points(events[|events| - 1].feedback)
  }

  /** Every event falls under exactly one feedback kind. */
  lemma {:induction false} CountsPartition(events: seq<LoggedEvent>)
    ensures CountOf(events, Correct) + CountOf(events, Early) + CountOf(events, Late)
      + CountOf(events, WrongNote) + CountOf(events, Missed) == |events|
  {
    if events != [] {
      CountsPartition(events[..|events| - 1]);
    }
  }

  /** The running score is ten points per correct note and five per timing error. */
  lemma {:induction false} ScoreFromCounts(events: seq<LoggedEvent>)
    ensures ScoreOf(events) == CORRECT_POINTS * CountOf(events, Correct)
      + TIMING_ERROR_POINTS * (CountOf(events, Early) + CountOf(events, Late))
  {
    if events != [] {
      ScoreFromCounts(events[..|events| - 1]);
    }
  }

  function ParseExpectedNote(n: NoteInput): ExpectedNote
  {
    ExpectedNote(n.midiNote, n.startTime, n.duration.GetOr(DEFAULT_NOTE_DURATION_MS), n.velocity)
  }

  /** Expected notes as a session starts with them: missing durations become 500 ms, velocities are kept. */
  method ParseExpectedNotes(notes: seq<NoteInput>) returns (parsed: seq<ExpectedNote>)
    ensures |parsed| == |notes|
    ensures forall i :: 0 <= i < |notes| ==>
      && parsed[i].midiNote == notes[i].midiNote && parsed[i].startTime == notes[i].startTime
      && parsed[i].velocity == notes[i].velocity
      && parsed[i].duration == (if notes[i].duration.Some? then notes[i].duration.value else DEFAULT_NOTE_DURATION_MS)
  {
    parsed := [];
    for i := 0 to |notes|
      invariant |parsed| == i
      invariant forall k :: 0 <= k < i ==> parsed[k] == ParseExpectedNote(notes[k])
    {
      parsed := parsed + [ParseExpectedNote(notes[i])];
    }
  }

  /** Expected notes as a section change replaces them: the velocity is not carried over. */
  function ReplacementNotes(notes: seq<NoteInput>): (r: seq<ExpectedNote>)
    ensures |r| == |notes|
    ensures forall i :: 0 <= i < |notes| ==>
      r[i] == ExpectedNote(notes[i].midiNote, notes[i].startTime, notes[i].duration.GetOr(DEFAULT_NOTE_DURATION_MS), None)
  {
    seq(|notes|, i requires 0 <= i < |notes| =>
      ExpectedNote(notes[i].midiNote, notes[i].startTime, notes[i].duration.GetOr(DEFAULT_NOTE_DURATION_MS), None))
  }

  /** The note a session waits for, if its position is still inside the tutorial. */
  function ExpectedAt(notes: seq<ExpectedNote>, index: int): (e: Option<ExpectedNote>)
    ensures e.Some? <==> 0 <= index < |notes|
    ensures e.Some? ==> e.value == notes[index]
  {
    if 0 <= index < |notes| then Some(notes[index]) else None
  }

  /** Progress through the tutorial, in whole percent; 0 for a tutorial without notes. */
  function ProgressPercent(index: int, total: int): (p: int)
    ensures total <= 0 ==> p == 0
    ensures total > 0 && 0 <= index <= total ==> 0 <= p <= 100
    ensures total > 0 ==> (p >= 100 <==> index >= total)
  {
    if total > 0 then Percent(index, total) else 0
  }

  class ActiveSession {
    const sessionId: string
    const userId: int
    const sessionType: string
    const lessonId: Option<int>
    const songId: Option<int>
    var expectedNotes: seq<ExpectedNote>
    var currentNoteIndex: int
    var notesPlayed: int
    var notesCorrect: int
    var notesWrong: int
    var timingErrors: int
    var currentScore: int
    const startedAt: int
    const tempo: int
    var events: seq<LoggedEvent>

    /**
     * The counters agree with the event log, and the position has moved
     * forward at most once per note played on time or with a timing error.
     */
    ghost predicate Valid()
      reads this
    {
      && notesPlayed == |events|
      && notesCorrect == CountOf(events, Correct)
      && timingErrors == CountOf(events, Early) + CountOf(events, Late)
      && notesWrong == CountOf(events, WrongNote) + CountOf(events, Missed)
      && currentScore == ScoreOf(events)
      && 0 <= currentNoteIndex <= notesCorrect + timingErrors
    }

    constructor (sessionId: string, userId: int, sessionType: string, lessonId: Option<int>,
                 songId: Option<int>, expectedNotes: seq<ExpectedNote>, tempo: int, now: int)
      ensures Valid()
      ensures this.sessionId == sessionId && this.userId == userId && this.sessionType == sessionType
      ensures this.lessonId == lessonId && this.songId == songId && this.expectedNotes == expectedNotes
      ensures this.tempo == tempo && startedAt == now
      ensures currentNoteIndex == 0 && notesPlayed == 0 && notesCorrect == 0 && notesWrong == 0
      ensures timingErrors == 0 && currentScore == 0 && events == []
    {
      this.sessionId := sessionId;
      this.userId := userId;
      this.sessionType := sessionType;
      this.lessonId := lessonId;
      this.songId := songId;
      this.expectedNotes := expectedNotes;
      this.tempo := tempo;
      startedAt := now;
      currentNoteIndex := 0;
      notesPlayed := 0;
      notesCorrect := 0;
      notesWrong := 0;
      timingErrors := 0;
      currentScore := 0;
      events := [];
    }

    /** The counters always add up to the notes played, and the score to their points. */
    lemma CountersAddUp()
      requires Valid()
      ensures notesPlayed == notesCorrect + timingErrors + notesWrong
      ensures currentScore == CORRECT_POINTS * notesCorrect + TIMING_ERROR_POINTS * timingErrors
    {
      CountsPartition(events);
      ScoreFromCounts(events);
    }

    /** Judges one played note and updates this session's counters and log. */
    method ProcessNote(midiNote: int, velocity: int, timestamp: real, toleranceMs: real)
      returns (f: NoteFeedback)
      requires Valid()
      modifies this`notesPlayed, this`notesCorrect, this`timingErrors, this`notesWrong
      modifies this`currentNoteIndex, this`currentScore, this`events
      ensures Valid()
      ensures
        var expected := ExpectedAt(expectedNotes, old(currentNoteIndex));
        var advances := f.feedbackType in {Correct, Early, Late};
        && f == EvaluateNote(NoteEvent(midiNote, velocity, timestamp), expected, toleranceMs)
        && notesPlayed == old(notesPlayed) + 1
        && notesCorrect == old(notesCorrect) + (if f.feedbackType == Correct then 1 else 0)
        && timingErrors == old(timingErrors) + (if f.feedbackType in {Early, Late} then 1 else 0)
        && notesWrong == old(notesWrong) + (if advances then 0 else 1)
        && currentNoteIndex == old(currentNoteIndex) + (if advances then 1 else 0)
        && currentScore == old(currentScore) + f.scoreDelta
        && events == old(events) + [LoggedEvent(timestamp, midiNote, velocity,
             if expected.Some? then Some(expected.value.midiNote) else None, f.feedbackType, f.timingDiffMs)]
      ensures old(currentNoteIndex) <= |expectedNotes| ==> currentNoteIndex <= |expectedNotes|
    {
      var expected := ExpectedAt(expectedNotes, currentNoteIndex);
      f := EvaluateNote(NoteEvent(midiNote, velocity, timestamp), expected, toleranceMs);
      var event := LoggedEvent(timestamp, midiNote, velocity,
        if expected.Some? then Some(expected.value.midiNote) else None, f.feedbackType, f.timingDiffMs);
      assert (events + [event])[..|events|] == events;
      notesPlayed := notesPlayed + 1;
      if f.feedbackType == Correct {
        notesCorrect := notesCorrect + 1;
        currentNoteIndex := currentNoteIndex + 1;
      } else if f.feedbackType in {Early, Late} {
        timingErrors := timingErrors + 1;
        currentNoteIndex := currentNoteIndex + 1;
      } else {
        notesWrong := notesWrong + 1;
      }
      currentScore := currentScore + f.scoreDelta;
      events := events + [event];
    }
  }

  /** The statistics a running session reports. */
  datatype Stats = Stats(
    notesPlayed: int,
    notesCorrect: int,
    notesWrong: int,
    timingErrors: int,
    currentScore: int,
    progress: int,
    currentNoteIndex: int,
    totalNotes: int)

  class PracticeSessionService {
    var activeSessions: map<string, ActiveSession>
    /** The timing tolerance of the scoring engine, in milliseconds. */
    const toleranceMs: real

    ghost predicate Valid()
      reads this, activeSessions.Values
    {
      forall id :: id in activeSessions ==> activeSessions[id].Valid()
    }

    constructor (toleranceMs: real)
      ensures Valid() && activeSessions == map[] && this.toleranceMs == toleranceMs
    {
      activeSessions := map[];
      this.toleranceMs := toleranceMs;
    }

    /** Registers a new session under its id, replacing any session that had the id. */
    method StartSession(sessionId: string, userId: int, sessionType: string, lessonId: Option<int>,
                        songId: Option<int>, expectedNotes: seq<NoteInput>, tempo: int, now: int)
      returns (session: ActiveSession)
      requires Valid()
      modifies this
      ensures Valid() && fresh(session)
      ensures activeSessions == old(activeSessions)[sessionId := session]
      ensures session.sessionId == sessionId && session.userId == userId && session.sessionType == sessionType
      ensures session.lessonId == lessonId && session.songId == songId && session.tempo == tempo
      ensures session.startedAt == now && |session.expectedNotes| == |expectedNotes|
      ensures forall i :: 0 <= i < |expectedNotes| ==> session.expectedNotes[i] == ParseExpectedNote(expectedNotes[i])
      ensures session.currentNoteIndex == 0 && session.notesPlayed == 0 && session.currentScore == 0 && session.events == []
    {
      var parsed := ParseExpectedNotes(expectedNotes);
      session := new ActiveSession(sessionId, userId, sessionType, lessonId, songId, parsed, tempo, now);
      activeSessions := activeSessions[sessionId := session];
    }

    function GetSession(sessionId: string): (s: Option<ActiveSession>)
      reads this
      ensures s.Some? <==> sessionId in activeSessions
      ensures s.Some? ==> s.value == activeSessions[sessionId]
    {
      if sessionId in activeSessions then Some(activeSessions[sessionId]) else None
    }

    /**
     * Judges a played note against the session's expected note and updates
     * the counters: a correct note or a timing error moves the session on
     * to the next expected note, a wrong note does not. An unknown session
     * gives no feedback and changes nothing.
     */
    method ProcessNote(sessionId: string, midiNote: int, velocity: int, timestamp: real)
      returns (feedback: Option<NoteFeedback>)
      requires Valid()
      modifies if sessionId in activeSessions then {activeSessions[sessionId]} else {}
      ensures Valid()
      ensures sessionId !in activeSessions ==> feedback == None
      ensures sessionId in activeSessions ==>
        var s := activeSessions[sessionId];
        var expected := ExpectedAt(old(s.expectedNotes), old(s.currentNoteIndex));
        var f := EvaluateNote(NoteEvent(midiNote, velocity, timestamp), expected, toleranceMs);
        var advances := f.feedbackType in {Correct, Early, Late};
        && feedback == Some(f)
        && s.expectedNotes == old(s.expectedNotes)
        && s.notesPlayed == old(s.notesPlayed) + 1
        && s.notesCorrect == old(s.notesCorrect) + (if f.feedbackType == Correct then 1 else 0)
        && s.timingErrors == old(s.timingErrors) + (if f.feedbackType in {Early, Late} then 1 else 0)
        && s.notesWrong == old(s.notesWrong) + (if advances then 0 else 1)
        && s.currentNoteIndex == old(s.currentNoteIndex) + (if advances then 1 else 0)
        && s.currentScore == old(s.currentScore) + f.scoreDelta
        && s.events == old(s.events) + [LoggedEvent(timestamp, midiNote, velocity,
             if expected.Some? then Some(expected.value.midiNote) else None, f.feedbackType, f.timingDiffMs)]
      ensures sessionId in activeSessions ==>
        var s := activeSessions[sessionId];
        old(s.currentNoteIndex) <= |s.expectedNotes| ==> s.currentNoteIndex <= |s.expectedNotes|
    {
      if sessionId !in activeSessions {
        return None;
      }
      var s := activeSessions[sessionId];
      var f := s.ProcessNote(midiNote, velocity, timestamp, toleranceMs);
      feedback := Some(f);
    }

    /** The running counts and the percentage of the tutorial passed; none for an unknown session. */
    function GetCurrentStats(sessionId: string): (stats: Option<Stats>)
      reads this, activeSessions.Values
      ensures stats.Some? <==> sessionId in activeSessions
      ensures stats.Some? ==>
        var s := activeSessions[sessionId];
        && stats.value.notesPlayed == s.notesPlayed && stats.value.notesCorrect == s.notesCorrect
        && stats.value.notesWrong == s.notesWrong && stats.value.timingErrors == s.timingErrors
        && stats.value.currentScore == s.currentScore && stats.value.currentNoteIndex == s.currentNoteIndex
        && stats.value.totalNotes == |s.expectedNotes|
        && stats.value.progress == ProgressPercent(s.currentNoteIndex, |s.expectedNotes|)
    {
      if sessionId !in activeSessions then None
      else
        var s := activeSessions[sessionId];
        Some(Stats(s.notesPlayed, s.notesCorrect, s.notesWrong, s.timingErrors, s.currentScore,
          ProgressPercent(s.currentNoteIndex, |s.expectedNotes|), s.currentNoteIndex, |s.expectedNotes|))
    }

    /**
     * Ends a session: it leaves the registry and its score card is
     * computed from its counters and the length of its tutorial. An
     * unknown id gives nothing.
     */
    method EndSession(sessionId: string) returns (result: Option<SessionScore>)
      requires Valid()
      modifies this
      ensures Valid()
      ensures activeSessions == old(activeSessions) - {sessionId}
      ensures sessionId !in old(activeSessions) ==> result == None
      ensures sessionId in old(activeSessions) ==>
        var s := old(activeSessions)[sessionId];
        result == Some(CalculateSessionScore(s.notesCorrect, s.timingErrors, s.notesWrong, |s.expectedNotes|))
    {
      if sessionId !in activeSessions {
        activeSessions := activeSessions - {sessionId};
        return None;
      }
      var s := activeSessions[sessionId];
      activeSessions := activeSessions - {sessionId};
      result := Some(CalculateSessionScore(s.notesCorrect, s.timingErrors, s.notesWrong, |s.expectedNotes|));
    }

    /**
     * Replaces a session's expected notes (a new section); the position
     * goes back to the start only when asked. False for an unknown session.
     */
    method UpdateExpectedNotes(sessionId: string, expectedNotes: seq<NoteInput>, resetProgress: bool)
      returns (ok: bool)
      requires Valid()
      modifies if sessionId in activeSessions then {activeSessions[sessionId]} else {}
      ensures Valid()
      ensures ok <==> sessionId in activeSessions
      ensures ok ==>
        var s := activeSessions[sessionId];
        && s.expectedNotes == ReplacementNotes(expectedNotes)
        && s.currentNoteIndex == (if resetProgress then 0 else old(s.currentNoteIndex))
        && s.notesPlayed == old(s.notesPlayed) && s.events == old(s.events) && s.currentScore == old(s.currentScore)
    {
      if sessionId !in activeSessions {
        return false;
      }
      var s := activeSessions[sessionId];
      s.expectedNotes := ReplacementNotes(expectedNotes);
      if resetProgress {
        s.currentNoteIndex := 0;
      }
      ok := true;
    }
  }
}
