/**
 * The decision rules of the song library endpoints: which uploads count
 * as audio, who may open a tutorial, what unlocking a song costs and how
 * it changes the gem balance, how progress reports are merged, and when
 * recognition is attempted at all.
 */
module SongsApi {
  import opened Wrappers
  import opened Text
  import Gamification
  import SongRecognition

  // ---------------------------------------------------------------------------
  // Uploads
  // ---------------------------------------------------------------------------

  /** `ALLOWED_AUDIO_EXTENSIONS`. */
  const AUDIO_EXTENSIONS: set<string> := {"mp3", "wav", "m4a", "ogg", "flac"}

  /**
   * `allowed_audio_file`: the name has a '.' and the text after the last
   * one, lower-cased, is an audio extension.
   */
  function AllowedAudioFile(filename: string): (ok: bool)
    ensures ok ==> '.' in filename
    ensures ok <==> exists i :: 0 <= i < |filename| && filename[i] == '.' && '.' !in filename[i + 1..]
                                && Lower(filename[i + 1..]) in AUDIO_EXTENSIONS
  {
    var dot := RFind(filename, '.');
    LastDot(filename, dot, AUDIO_EXTENSIONS);
    if dot == -1 then false
    else Lower(filename[dot + 1..]) in AUDIO_EXTENSIONS
  }

  /** Some '.' with none after it is followed by one of `exts` exactly when the last '.' is. */
  lemma LastDot(filename: string, dot: int, exts: set<string>)
    requires dot == RFind(filename, '.')
    ensures dot != -1 ==> '.' in filename
    ensures (exists i :: 0 <= i < |filename| && filename[i] == '.' && '.' !in filename[i + 1..]
                         && Lower(filename[i + 1..]) in exts)
      <==> dot != -1 && Lower(filename[dot + 1..]) in exts
  {
    LastDotUnique(filename, dot);
    if dot != -1 {
      LastDotClear(filename, dot);
    }
  }

  /** A '.' with no '.' after it is the last one. */
  lemma LastDotUnique(filename: string, dot: int)
    requires dot == RFind(filename, '.')
    ensures forall i :: 0 <= i < |filename| && filename[i] == '.' && '.' !in filename[i + 1..] ==> i == dot
  {
    forall i | 0 <= i < dot
      ensures filename[i] == '.' ==> '.' in filename[i + 1..]
    {
      assert filename[i + 1..][dot - i - 1] == filename[dot];
    }
  }

  /** No '.' follows the last one. */
  lemma LastDotClear(filename: string, dot: int)
    requires dot == RFind(filename, '.') && dot != -1
    ensures 0 <= dot < |filename| && filename[dot] == '.' && '.' !in filename[dot + 1..]
  {
    var rest := filename[dot + 1..];
    forall k | 0 <= k < |rest|
      ensures rest[k] != '.'
    {
      assert rest[k] == filename[dot + 1 + k];
    }
  }

  /** Only the last extension decides: appending ".e" makes a name audio exactly when e is an audio extension. */
  lemma LastExtensionDecides(name: string, ext: string)
    requires '.' !in ext
    ensures AllowedAudioFile(name + "." + ext) <==> Lower(ext) in AUDIO_EXTENSIONS
  {
    var f := name + "." + ext;
    assert f[|name|] == '.' && f[|name| + 1..] == ext;
  }

  // ---------------------------------------------------------------------------
  // Tutorial access
  // ---------------------------------------------------------------------------

  /** The song columns the handlers read. */
  datatype Song = Song(id: int, isFree: bool, difficulty: string, createdBy: Option<int>)

  /** Unlock records, as (user id, song id) pairs. */
  type Unlocks = set<(int, int)>

  /**
   * The caller has unlocked the song: a signed-in caller (a user id of 0
   * counts as none, as it is falsy) holding an unlock record for it or
   * having created it.
   */
  predicate HasUnlocked(song: Song, userId: Option<int>, unlocks: Unlocks)
  {
    userId.Some? && userId.value != 0 && ((userId.value, song.id) in unlocks || song.createdBy == Some(userId.value))
  }

  /**
   * `get_tutorial`'s access rule: the tutorial is refused with 403 exactly
   * when the song is not free, the caller is not premium and has not
   * unlocked it.
   */
  function TutorialAccess(song: Song, userId: Option<int>, isPremium: bool, unlocks: Unlocks): (status: int)
    ensures status == 403 || status == 200
    ensures status == 403 <==> !song.isFree && !isPremium && !HasUnlocked(song, userId, unlocks)
  {
    if !song.isFree && !isPremium && !HasUnlocked(song, userId, unlocks) then 403 else 200
  }

  /** Access only grows: more unlock records or a premium flag never take a tutorial away. */
  lemma AccessMonotone(song: Song, userId: Option<int>, isPremium: bool, unlocks: Unlocks, more: Unlocks)
    requires unlocks <= more
    ensures TutorialAccess(song, userId, isPremium, unlocks) == 200 ==> TutorialAccess(song, userId, isPremium, more) == 200
    ensures TutorialAccess(song, userId, true, unlocks) == 200
  {
  }

  // ---------------------------------------------------------------------------
  // Unlocking with gems
  // ---------------------------------------------------------------------------

  /** `SONG_COSTS`, with 150 for any other difficulty. */
  function SongCost(difficulty: string): (cost: int)
    ensures cost in {100, 150, 200, 300}
    ensures difficulty == "beginner" <==> cost == 100
    ensures difficulty == "intermediate" <==> cost == 200
    ensures difficulty == "advanced" <==> cost == 300
  {
    if difficulty == "beginner" then 100
    else if difficulty == "intermediate" then 200
    else if difficulty == "advanced" then 300
    else 150
  }

  /** Why an unlock is refused. */
  datatype UnlockError =
    | AlreadyFree
    | AlreadyUnlocked
    | NotEnoughGems(required: int, current: int)
      /** The balance is empty and cannot be compared with the cost (an internal error). */
    | EmptyBalance

  /** A successful unlock: the song, what it cost and the balance left. */
  datatype Unlocked = Unlocked(songId: int, gemsSpent: int, gemsRemaining: int)

  /**
   * The outcome of `unlock_song` as written: an empty balance, which a
   * gem record created on the spot still has, cannot be compared with the
   * cost.
   */
  function UnlockOutcomeAsWritten(song: Song, userId: int, unlocks: Unlocks, gems: Option<int>): (r: Result<int, UnlockError>)
    ensures r.Ok? <==> !song.isFree && (userId, song.id) !in unlocks && gems.Some? && gems.value >= SongCost(song.difficulty)
    ensures r == Err(EmptyBalance) <==> !song.isFree && (userId, song.id) !in unlocks && gems.None?
  {
    if song.isFree then Err(AlreadyFree)
    else if (userId, song.id) in unlocks then Err(AlreadyUnlocked)
    else
      var cost := SongCost(song.difficulty);
      if gems.None? then Err(EmptyBalance)
      else if gems.value < cost then Err(NotEnoughGems(cost, gems.value))
      else Ok(cost)
  }

  /**
   * The outcome `unlock_song` evidently intends: an empty balance counts as
   * the 50 gems a new record starts with, as `spend_gems` counts it, so a
   * new record is refused for too few gems rather than failing.
   */
  function UnlockOutcome(song: Song, userId: int, unlocks: Unlocks, gems: Option<int>): (r: Result<int, UnlockError>)
    ensures r.Ok? <==> !song.isFree && (userId, song.id) !in unlocks && gems.GetOr(Gamification.DEFAULT_GEMS) >= SongCost(song.difficulty)
    ensures r.Ok? ==> r.value == SongCost(song.difficulty)
    ensures r != Err(EmptyBalance)
    ensures r.Err? && r.error.NotEnoughGems? ==>
      r.error.required == SongCost(song.difficulty) && r.error.current == gems.GetOr(Gamification.DEFAULT_GEMS) < r.error.required
  {
    if song.isFree then Err(AlreadyFree)
    else if (userId, song.id) in unlocks then Err(AlreadyUnlocked)
    else
      var cost := SongCost(song.difficulty);
      var balance := gems.GetOr(Gamification.DEFAULT_GEMS);
      if balance < cost then Err(NotEnoughGems(cost, balance))
      else Ok(cost)
  }

  /** Both agree whenever there is a balance; on an empty one the code as written fails. */
  lemma UnlockEmptyBalanceFails(song: Song, userId: int, unlocks: Unlocks, gems: Option<int>)
    ensures gems.Some? ==> UnlockOutcomeAsWritten(song, userId, unlocks, gems) == UnlockOutcome(song, userId, unlocks, gems)
    ensures !song.isFree && (userId, song.id) !in unlocks && gems.None? ==>
      UnlockOutcomeAsWritten(song, userId, unlocks, gems) == Err(EmptyBalance)
      && UnlockOutcome(song, userId, unlocks, gems) == Err(NotEnoughGems(SongCost(song.difficulty), 50))
  {
  }

  /** A song the caller can afford and has not unlocked opens exactly once. */
  lemma UnlockOnlyOnce(song: Song, userId: int, unlocks: Unlocks, gems: Option<int>)
    requires UnlockOutcome(song, userId, unlocks, gems).Ok?
    ensures UnlockOutcome(song, userId, unlocks + {(userId, song.id)}, gems) == Err(AlreadyUnlocked)
    ensures UnlockOutcome(song, userId, unlocks + {(userId, song.id)}, Some(gems.GetOr(Gamification.DEFAULT_GEMS) - SongCost(song.difficulty)))
      == Err(AlreadyUnlocked)
  {
  }

  /**
   * `unlock_song` (with an empty balance counting as 50): refuses free and
   * already unlocked songs and balances below the cost, leaving the
   * balance and the unlock records as they were; otherwise it spends
   * exactly the cost and records the unlock.
   */
  method UnlockSong(song: Song, userId: int, unlocks: Unlocks, g: Gamification.UserGamification)
    returns (r: Result<Unlocked, UnlockError>, unlocks': Unlocks)
    modifies g`gems
    ensures r.Ok? <==> UnlockOutcome(song, userId, unlocks, old(g.gems)).Ok?
    ensures r.Err? ==> r.error == UnlockOutcome(song, userId, unlocks, old(g.gems)).error
                       && g.gems == old(g.gems) && unlocks' == unlocks
    ensures r.Ok? ==>
      var cost := SongCost(song.difficulty);
      && g.gems == Some(old(g.gems).GetOr(Gamification.DEFAULT_GEMS) - cost)
      && g.gems.value >= 0
      && unlocks' == unlocks + {(userId, song.id)}
      && r.value == Unlocked(song.id, cost, g.gems.value)
  {
    unlocks' := unlocks;
    if song.isFree {
      return Err(AlreadyFree), unlocks';
    }
    if (userId, song.id) in unlocks {
      return Err(AlreadyUnlocked), unlocks';
    }
    var cost := SongCost(song.difficulty);
    var balance := g.gems.GetOr(Gamification.DEFAULT_GEMS);
    if balance < cost {
      return Err(NotEnoughGems(cost, balance)), unlocks';
    }
    var _ := g.SpendGems(cost);
    unlocks' := unlocks + {(userId, song.id)};
    r := Ok(Unlocked(song.id, cost, g.gems.value));
  }

  /**
   * An unlock turns a refused tutorial into an open one: before it a
   * caller who is neither premium nor the song's creator is refused, and
   * after it any caller holding the record is let in.
   */
  lemma UnlockGrantsAccess(song: Song, userId: int, unlocks: Unlocks, gems: Option<int>, isPremium: bool)
    requires userId != 0 && UnlockOutcome(song, userId, unlocks, gems).Ok?
    ensures !isPremium && song.createdBy != Some(userId) ==> TutorialAccess(song, Some(userId), isPremium, unlocks) == 403
    ensures TutorialAccess(song, Some(userId), isPremium, unlocks + {(userId, song.id)}) == 200
  {
  }

  // ---------------------------------------------------------------------------
  // Song progress
  // ---------------------------------------------------------------------------

  /** The fields of a progress report that are present. */
  datatype ProgressReport = ProgressReport(
    tutorialId: Option<int>, overallProgress: Option<int>, bestAccuracy: Option<int>, practiceTimeSeconds: Option<int>)

  /** The best accuracy kept after a report: the larger of the stored one and the reported one. */
  function Best(stored: Option<int>, reported: Option<int>): (b: Option<int>)
    ensures b.Some? <==> stored.Some? || reported.Some?
    ensures b.Some? ==> (b == stored || b == reported)
    ensures b.Some? && stored.Some? ==> b.value >= stored.value
    ensures b.Some? && reported.Some? ==> b.value >= reported.value
  {
    if reported.Some? && (stored.None? || reported.value > stored.value) then reported else stored
  }

  /** The best accuracy after a run of reports, starting from none. */
  function BestOf(reports: seq<Option<int>>): Option<int>
  {
    if reports == [] then None else Best(BestOf(reports[..|reports| - 1]), reports[|reports| - 1])
  }

  /** After any run of reports the stored best is the largest accuracy reported, and one of them. */
  lemma {:induction false} BestOfIsMaximum(reports: seq<Option<int>>)
    ensures BestOf(reports).Some? <==> exists i :: 0 <= i < |reports| && reports[i].Some?
    ensures forall i :: 0 <= i < |reports| && reports[i].Some? ==> BestOf(reports).value >= reports[i].value
    ensures BestOf(reports).Some? ==> BestOf(reports) in reports
  {
    if reports != [] {
      var init := reports[..|reports| - 1];
      BestOfIsMaximum(init);
      assert forall i :: 0 <= i < |init| ==> init[i] == reports[i];
      if BestOf(init).Some? {
        var k :| 0 <= k < |init| && init[k] == BestOf(init);
        assert reports[k] == BestOf(init);
      }
    }
  }

  /** Adding seconds to a practice total as written: an empty total, as a new record has, cannot be added to. */
  function AccumulateAsWritten(total: Option<int>, seconds: int): (r: Result<int, string>)
    ensures r.Ok? <==> total.Some?
    ensures r.Ok? ==> r.value - total.value == seconds
  {
    if total.None? then Err("TypeError") else Ok(total.value + seconds)
  }

  /** Adding seconds to a practice total, an empty total counting as the column default 0. */
  function Accumulate(total: Option<int>, seconds: int): (t: int)
    ensures t - total.GetOr(0) == seconds
    ensures total.Some? ==> AccumulateAsWritten(total, seconds) == Ok(t)
  {
    total.GetOr(0) + seconds
  }

  /** A new record's first practice report fails as written and records exactly the reported seconds once corrected. */
  lemma FirstPracticeReport(seconds: int)
    ensures AccumulateAsWritten(None, seconds).Err?
    ensures Accumulate(None, seconds) == seconds
  {
  }

  /** One user's progress on one song. */
  class SongProgress {
    var tutorialId: Option<int>
    var overallProgress: Option<int>
    var bestAccuracy: Option<int>
    var practiceTimeSeconds: Option<int>
    var lastPracticedAt: Option<int>

    /** A record made on the first report: every column still empty until it is stored. */
    constructor ()
      ensures tutorialId == None && overallProgress == None && bestAccuracy == None
      ensures practiceTimeSeconds == None && lastPracticedAt == None
    {
      tutorialId := None;
      overallProgress := None;
      bestAccuracy := None;
      practiceTimeSeconds := None;
      lastPracticedAt := None;
    }

    /**
     * `update_progress` (with an empty practice total counting as 0): the
     * tutorial and overall progress are overwritten when reported, the
     * best accuracy is a running maximum, and reported seconds are added
     * to the practice total and stamp the practice time.
     */
    method Update(report: ProgressReport, now: int)
      modifies this
      ensures tutorialId == if report.tutorialId.Some? then report.tutorialId else old(tutorialId)
      ensures overallProgress == if report.overallProgress.Some? then report.overallProgress else old(overallProgress)
      ensures bestAccuracy == Best(old(bestAccuracy), report.bestAccuracy)
      ensures report.practiceTimeSeconds.Some? ==>
        practiceTimeSeconds == Some(Accumulate(old(practiceTimeSeconds), report.practiceTimeSeconds.value))
        && lastPracticedAt == Some(now)
      ensures report.practiceTimeSeconds.None? ==>
        practiceTimeSeconds == old(practiceTimeSeconds) && lastPracticedAt == old(lastPracticedAt)
    {
      if report.tutorialId.Some? {
        tutorialId := report.tutorialId;
      }
      if report.overallProgress.Some? {
        overallProgress := report.overallProgress;
      }
      if report.bestAccuracy.Some? && (bestAccuracy.None? || report.bestAccuracy.value > bestAccuracy.value) {
        bestAccuracy := report.bestAccuracy;
      }
      if report.practiceTimeSeconds.Some? {
        practiceTimeSeconds := Some(practiceTimeSeconds.GetOr(0) + report.practiceTimeSeconds.value);
        lastPracticedAt := Some(now);
      }
    }
  }

  // ---------------------------------------------------------------------------
  // Recognition
  // ---------------------------------------------------------------------------

  /** Fewest notes `/recognize` passes on to the matcher. */
  const MIN_RECOGNIZE_NOTES := 5

  /** The `notes` field of a recognition request. */
  datatype NotesField = Missing | NotAList | NoteList(notes: seq<int>)

  /**
   * `/recognize`: a request without notes is refused with 400; a value
   * that is not a list, or fewer than five notes, yields no matches;
   * otherwise the matcher's result for the catalogue's patterns.
   */
  method Recognize(field: NotesField, patterns: seq<SongRecognition.Pattern>)
    returns (r: Result<seq<SongRecognition.SongMatch>, int>)
    ensures r.Err? <==> field.Missing?
    ensures r.Err? ==> r.error == 400
    ensures field.NotAList? ==> r == Ok([])
    ensures field.NoteList? && |field.notes| < MIN_RECOGNIZE_NOTES ==> r == Ok([])
    ensures field.NoteList? && |field.notes| >= MIN_RECOGNIZE_NOTES ==>
      r == Ok(SongRecognition.MatchSongs(field.notes, patterns, []))
  {
    if field.Missing? {
      return Err(400);
    }
    if field.NotAList? || |field.notes| < MIN_RECOGNIZE_NOTES {
      return Ok([]);
    }
    var matches := SongRecognition.FindMatchingSongs(field.notes, patterns, []);
    return Ok(matches);
  }
}
