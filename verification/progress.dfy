/**
 * Progress records: how far a user is through a lesson, and the stored
 * summary of one practice session. Timestamps are whole seconds supplied
 * by the caller; the list of completed sections is held decoded.
 */
module Progress {
  import opened Wrappers
  import opened Numeric

  predicate NoDuplicates<T(==)>(s: seq<T>)
  {
    forall i, j :: 0 <= i < j < |s| ==> s[i] != s[j]
  }

  class LessonProgress {
    const userId: int
    const lessonId: int
    var sectionsCompleted: seq<string>
    var currentSectionId: Option<string>
    var overallProgress: int
    var bestScore: Option<int>
    var practiceTimeSeconds: int
    var lastAttemptAt: Option<int>
    var completedAt: Option<int>

    /** Sections are recorded once each, and the progress is never negative. */
    ghost predicate Valid()
      reads this
    {
      NoDuplicates(sectionsCompleted) && overallProgress >= 0
    }

    /** A new record, with the column defaults: nothing completed, progress 0, no time practised. */
    constructor (userId: int, lessonId: int)
      ensures Valid()
      ensures this.userId == userId && this.lessonId == lessonId
      ensures sectionsCompleted == [] && currentSectionId == None && overallProgress == 0
      ensures bestScore == None && practiceTimeSeconds == 0 && lastAttemptAt == None && completedAt == None
    {
      this.userId := userId;
      this.lessonId := lessonId;
      sectionsCompleted := [];
      currentSectionId := None;
      overallProgress := 0;
      bestScore := None;
      practiceTimeSeconds := 0;
      lastAttemptAt := None;
      completedAt := None;
    }

    /** Records a section as complete; a section already recorded changes nothing. */
    method MarkSectionComplete(sectionId: string, now: int)
      requires Valid()
      modifies this`sectionsCompleted, this`lastAttemptAt
      ensures Valid()
      ensures sectionId in sectionsCompleted
      ensures sectionId in old(sectionsCompleted) ==>
        sectionsCompleted == old(sectionsCompleted) && lastAttemptAt == old(lastAttemptAt)
      ensures sectionId !in old(sectionsCompleted) ==>
        sectionsCompleted == old(sectionsCompleted) + [sectionId] && lastAttemptAt == Some(now)
    {
      if sectionId !in sectionsCompleted {
        sectionsCompleted := sectionsCompleted + [sectionId];
        lastAttemptAt := Some(now);
      }
    }

    /**
     * Recomputes the percentage of completed sections (0 when the lesson
     * has no sections) and stamps the completion time once it reaches 100.
     */
    method UpdateProgress(totalSections: int, now: int)
      requires Valid()
      modifies this`overallProgress, this`completedAt
      ensures Valid()
      ensures overallProgress == if totalSections > 0 then Percent(|sectionsCompleted|, totalSections) else 0
      ensures overallProgress >= 100 <==> totalSections > 0 && |sectionsCompleted| >= totalSections
      ensures completedAt == if overallProgress >= 100 then Some(now) else old(completedAt)
    {
      overallProgress := if totalSections > 0 then Percent(|sectionsCompleted|, totalSections) else 0;
      if overallProgress >= 100 {
        completedAt := Some(now);
      }
    }

    method AddPracticeTime(seconds: int, now: int)
      requires Valid()
      modifies this`practiceTimeSeconds, this`lastAttemptAt
      ensures Valid()
      ensures practiceTimeSeconds == old(practiceTimeSeconds) + seconds && lastAttemptAt == Some(now)
    {
      practiceTimeSeconds := practiceTimeSeconds + seconds;
      lastAttemptAt := Some(now);
    }
  }

  /** Share of the played notes that were correct, truncated to a whole percentage; 0 when nothing was played. */
  function FinalScore(notesCorrect: int, notesPlayed: int): (score: int)
    ensures notesPlayed > 0 && 0 <= notesCorrect <= notesPlayed ==> 0 <= score <= 100
    ensures notesPlayed > 0 && notesCorrect >= 0 ==> (score == 100 <==> notesCorrect >= notesPlayed && notesCorrect * 100 < notesPlayed * 101)
    ensures notesPlayed <= 0 ==> score == 0
  {
    if notesPlayed > 0 then
      PercentHundred(notesCorrect, notesPlayed);
      Percent(notesCorrect, notesPlayed)
    else 0
  }

  /** A truncated percentage is exactly 100 when the part reaches the whole but stays below 101% of it. */
  lemma PercentHundred(part: int, whole: int)
    requires whole > 0
    ensures Percent(part, whole) == 100 <==> part >= whole && part * 100 < whole * 101
  {
    var p := Percent(part, whole);
    if p >= 101 {
      assert (p - 101) * whole >= 0;
      assert p * whole >= 101 * whole;
    }
  }

  /** The stored record of one practice session; `Event` is the type of the logged note events. */
  class PracticeSessionRecord<Event> {
    const userId: int
    const sessionType: string
    const lessonId: Option<int>
    const songId: Option<int>
    var durationSeconds: int
    var notesPlayed: int
    var notesCorrect: int
    var notesWrong: int
    var timingErrors: int
    var finalScore: Option<int>
    var events: seq<Event>
    const startedAt: int
    var endedAt: Option<int>

    constructor (userId: int, sessionType: string, lessonId: Option<int>, songId: Option<int>,
                 notesPlayed: int, notesCorrect: int, notesWrong: int, timingErrors: int,
                 finalScore: Option<int>, startedAt: int)
      ensures this.userId == userId && this.sessionType == sessionType
      ensures this.lessonId == lessonId && this.songId == songId
      ensures this.notesPlayed == notesPlayed && this.notesCorrect == notesCorrect
      ensures this.notesWrong == notesWrong && this.timingErrors == timingErrors
      ensures this.finalScore == finalScore && this.startedAt == startedAt
      ensures durationSeconds == 0 && events == [] && endedAt == None
    {
      this.userId := userId;
      this.sessionType := sessionType;
      this.lessonId := lessonId;
      this.songId := songId;
      this.notesPlayed := notesPlayed;
      this.notesCorrect := notesCorrect;
      this.notesWrong := notesWrong;
      this.timingErrors := timingErrors;
      this.finalScore := finalScore;
      this.startedAt := startedAt;
      durationSeconds := 0;
      events := [];
      endedAt := None;
    }

    /** Appends one event to the log and counts it as played. */
    method AddNoteEvent(event: Event)
      modifies this`events, this`notesPlayed
      ensures events == old(events) + [event] && notesPlayed == old(notesPlayed) + 1
    {
      events := events + [event];
      notesPlayed := notesPlayed + 1;
    }

    /**
     * Closes the session: the end time, the whole seconds since the start,
     * and a final score recomputed from the counters, replacing whatever
     * score the record was created with.
     */
    method EndSession(now: int)
      modifies this`endedAt, this`durationSeconds, this`finalScore
      ensures endedAt == Some(now) && durationSeconds == now - startedAt
      ensures finalScore == Some(FinalScore(notesCorrect, notesPlayed))
    {
      endedAt := Some(now);
      durationSeconds := now - startedAt;
      finalScore := Some(FinalScore(notesCorrect, notesPlayed));
    }
  }
}
