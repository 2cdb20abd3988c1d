# sargam-ai backend, modelled in Dafny

This project models the core of the Python backend of sargam-ai, a piano-learning app built around Bollywood songs. The model covers four groups of logic.

- **Melody recognition.** Played MIDI notes become transposition-free intervals. Every catalogue pattern is scored with three fuzzy scorers: a sliding window, a best subsequence start and the song's opening. A rhythm match over S/M/L/X duration categories can be blended in. Matches are then thresholded at 0.6, capped at confidence 99, sorted, and cut to five. The melody-line, interval and pattern helpers of the audio analysis service sit beside this.
- **Notation parsers and timelines.** This covers the tutorial parser: format detection, the MIDI, JSON, sargam, Western and numbered readers, the fallback reader, key detection and JSON extraction. It also covers the seed note-name parser and timeline builders, the two octave-wrapping melody parsers of the catalogue scripts, and the tutorial timeline of the Bollywood seeder.
- **Guided practice.** This covers note classification (correct, early, late, wrong), the session score and grade, and the practice-session service with its table of active sessions.
- **Gamification and progress.** This covers XP levels, the gem wallet, streaks with freezes, the daily goal and reward chests. It also covers lesson and session progress records, the user and one-time-password predicates, and the decision rules inside the HTTP handlers for gamification, songs, administration and phone login.

The model follows the backend code, except where the "## Findings" table below records a defect. There the members the rest of the model uses (the tutorial parser's format detection and sargam reader, song unlocking, song progress updates and the code check of phone login) compute the evidently intended behaviour, and each finding also has a member that models the code as written. The browser-side recognition engine (pitch estimation, note stabilising, local-alignment and n-gram matchers, score fusion) is not part of this model, because no backend file implements it.

Modules, one per source file, with shared helpers:

| module | file | source |
|---|---|---|
| `Wrappers`, `Numeric`, `Text` | wrappers.dfy, numeric.dfy, text.dfy | `Option`/`Result`, Python's `int()`/`round()`, and string helpers (ASCII case, strip, split, find) |
| `Melody` | melody.dfy | the successive-difference loop that every file repeats |
| `OctaveWrap` | octave_wrap.dfy | `parse_notes` of apps/backend/fix_all_melodies.py and apps/backend/add_recognition_songs.py |
| `Seed` | seed.dfy | apps/backend/app/utils/seed.py |
| `SeedBollywood` | seed_bollywood.dfy | `create_tutorial_notes` of apps/backend/seed_bollywood_songs.py |
| `Scoring` | scoring.dfy | apps/backend/app/services/scoring_service.py |
| `Practice` | practice.dfy | apps/backend/app/services/practice_service.py |
| `Progress`, `User`, `Gamification` | progress.dfy, user.dfy, gamification.dfy | the models of the same names |
| `AudioAnalysis`, `SongRecognition` | audio_analysis.dfy, song_recognition.dfy | apps/backend/app/services/audio_analysis_service.py |
| `TutorialParser` | tutorial_parser.dfy | apps/backend/app/services/tutorial_parser.py |
| `GamificationApi`, `SongsApi`, `AdminApi`, `AuthApi` | gamification_api.dfy, songs_api.dfy, admin_api.dfy, auth_api.dfy | the handlers under apps/backend/app/api/ |

Code that updates state in place is modelled as classes. This covers the practice-session table, the gamification, progress, user and one-time-password records, the song record and the code table. Each method states its whole new state. Code that loops is modelled as methods proved against a specification function, whose properties are proved as lemmas. Branching decisions are modelled as functions. The clock (`now`, `today`), the random draws (chest contents, the one-time code), the decoded JSON document and the parser's outcome are parameters.

## Model

| member | source | states |
|---|---|---|
| Melody.IntervalsShape | apps/backend/fix_all_melodies.py:66-71 | there is one interval fewer than notes (none for fewer than two notes), and interval i is `notes[i+1] - notes[i]` |
| Melody.IntervalsSum | apps/backend/fix_all_melodies.py:66-71 | the intervals add up to the last note minus the first |
| Melody.IntervalsShift | apps/backend/fix_all_melodies.py:66-71 | transposing a melody leaves its intervals unchanged, which is why intervals are what the catalogue stores for matching |
| Melody.IntervalsPrefix | apps/backend/fix_all_melodies.py:66-71 | the first n + 1 notes have exactly the first n intervals |
| Melody.CalculateIntervals | apps/backend/fix_all_melodies.py:66-71 | the `calculate_intervals` loop (the same loop as in `add_recognition_songs.py`, `seed_bollywood_songs.py`, the seed helpers, the parser and the admin handlers) returns exactly the successive differences |
| OctaveWrap.NoteToSemitoneRange | apps/backend/fix_all_melodies.py:17-25 | every spelling in the note table names a semitone in 0..11 |
| OctaveWrap.PartSemitone | apps/backend/fix_all_melodies.py:39-49 | a kept part yields a semitone in 0..11; an empty or unknown part yields none and is skipped |
| OctaveWrap.KnownSemitones | apps/backend/fix_all_melodies.py:38-49 | the kept semitones, pitch classes 0..11 by their type, are no more than the parts |
| OctaveWrap.Smooth | apps/backend/fix_all_melodies.py:52-58 | a change of semitone becomes a step of at most a tritone either way, equal to the change or to it plus or minus an octave |
| OctaveWrap.SmoothMelody | apps/backend/fix_all_melodies.py:32-64 | the reference melody has one note per kept semitone |
| OctaveWrap.SmoothMelodyStep | apps/backend/fix_all_melodies.py:52-60 | each note is the previous note plus the smoothed semitone change |
| OctaveWrap.NoteAtAgree | apps/backend/fix_all_melodies.py:51-60 | a note depends only on the names read up to it |
| OctaveWrap.SmoothMelodyPrefix | apps/backend/fix_all_melodies.py:38-62 | reading a prefix of the semitones gives the prefix of the melody |
| OctaveWrap.SmoothMelodyFirst | apps/backend/fix_all_melodies.py:35-60 | the first note is in the octave of middle C: 60 plus its semitone |
| OctaveWrap.SmoothMelodyPitchClass | apps/backend/fix_all_melodies.py:60 | every note has the pitch class of the name it was read from |
| OctaveWrap.SmoothMelodyProperties | apps/backend/fix_all_melodies.py:51-62 | the first note lies in 60..71, every note keeps its pitch class, and no two neighbours are more than a tritone apart (the "keep the melody smooth" promise) |
| OctaveWrap.SmoothMelodyIntervals | apps/backend/fix_all_melodies.py:66-71 | the stored intervals of a read melody are the smoothed semitone changes, one fewer than the notes |
| OctaveWrap.SmoothMelodyAppend | apps/backend/fix_all_melodies.py:51-62 | one more kept name adds one smoothed step to the melody |
| OctaveWrap.KnownSemitonesStep | apps/backend/fix_all_melodies.py:38-49 | one more part adds its semitone exactly when its name is known |
| OctaveWrap.ReadingExtends | apps/backend/fix_all_melodies.py:51-62 | one placed note keeps the loop's state: notes are the melody of the kept semitones and the last note lies in the current octave |
| OctaveWrap.ReadParts | apps/backend/fix_all_melodies.py:32-64 | the octave-tracking loop returns exactly the reference melody of the kept semitones |
| OctaveWrap.PlaceNote | apps/backend/fix_all_melodies.py:51-62 | the octave moves up after a fall of more than a tritone and down after a rise of more; the note is the semitone in that octave, a smoothed step from the last note |
| OctaveWrap.ParseNotesFix | apps/backend/fix_all_melodies.py:27-64 | `parse_notes` (backticks removed, split on whitespace) returns the reference melody of the kept names |
| OctaveWrap.ParseNotesRecognition | apps/backend/add_recognition_songs.py:29-66 | the same reader after removing backticks, bar lines and plus signs |
| OctaveWrap.AdmitSong | apps/backend/add_recognition_songs.py:138-152 | a song that reads to fewer than four notes is skipped; an admitted one stores its notes and their intervals, at least three |
| SeedBollywood.Beat | apps/backend/seed_bollywood_songs.py:601 | a positive tempo gives a positive beat, at least one millisecond up to tempo 60000 |
| SeedBollywood.EntryDuration | apps/backend/seed_bollywood_songs.py:608 | each note sounds for the truncated 80% of a beat, never negative and never longer |
| SeedBollywood.BeatStart | apps/backend/seed_bollywood_songs.py:603-612 | the running start time after i beats is never negative for a non-negative beat |
| SeedBollywood.BeatStartIsProduct | apps/backend/seed_bollywood_songs.py:603-612 | adding the beat i times gives `i * beat` |
| SeedBollywood.BeatStartSplit | apps/backend/seed_bollywood_songs.py:603-612 | beat j starts j - i beats after beat i |
| SeedBollywood.Entry | apps/backend/seed_bollywood_songs.py:605-610 | entry i carries note i and index i, and starts at the truncated running start time of beat i, less than a millisecond before it |
| SeedBollywood.TutorialNotes | apps/backend/seed_bollywood_songs.py:599-614 | the tutorial has one entry per note, in order, each with the common duration |
| SeedBollywood.CreateTutorialNotes | apps/backend/seed_bollywood_songs.py:599-614 | the running-time loop builds exactly the reference tutorial |
| SeedBollywood.TutorialStartsAtZero | apps/backend/seed_bollywood_songs.py:603-609 | the first entry starts at time 0 |
| SeedBollywood.TutorialTimesNondecreasing | apps/backend/seed_bollywood_songs.py:603-611 | for a positive tempo, start times never decrease despite truncation |
| SeedBollywood.TutorialEntriesDoNotOverlap | apps/backend/seed_bollywood_songs.py:603-611 | every entry has ended when the next starts, and starts strictly increase when a beat is at least a millisecond |
| Seed.NoteMapRange | apps/backend/app/utils/seed.py:13-21 | every spelling in `NOTE_MAP` names a semitone of one octave, 0..11 |
| Seed.NoteName | apps/backend/app/utils/seed.py:28-42 | the looked-up name is a table spelling or falls back to the first character |
| Seed.Semitone | apps/backend/app/utils/seed.py:44 | the semitone, with the default 0 for an unknown name, lies in 0..11 |
| Seed.ParseNoteToMidi | apps/backend/app/utils/seed.py:24-45 | a string that strips to something parses to a note inside the requested octave, `(octave+1)*12 .. (octave+2)*12 - 1`; an empty one has no result (the source raises) |
| Seed.MidiOfUpper | apps/backend/app/utils/seed.py:28-45 | the same for a string already stripped and upper-cased |
| Seed.ParseSpellings | apps/backend/app/utils/seed.py:28-45 | a letter A..G, its sharp and its flat are read through `NOTE_MAP` in the requested octave |
| Seed.AccidentalsAreSemitoneSteps | apps/backend/app/utils/seed.py:13-21 | in the table a sharp is one semitone above its letter and a flat one below, modulo the octave; only B is 11 and only C is 0 |
| Seed.AccidentalsStayInOctave | apps/backend/app/utils/seed.py:24-45 | parsed sharps and flats are one semitone from their letter, except that B# and Cb wrap within the same octave number (B# is 11 below B, Cb 11 above C) |
| Seed.ParseNoteIgnoresCase | apps/backend/app/utils/seed.py:26 | upper-casing first makes the parser blind to case: "bb" reads as "Bb" |
| Seed.NotationNotes | apps/backend/app/utils/seed.py:48-62 | one note per token that starts with A..G, no more notes than tokens, each inside the octave; none exactly when no token starts with a note letter |
| Seed.NotationStep | apps/backend/app/utils/seed.py:54-61 | each token adds its note exactly when it starts with a letter from A to G, and nothing otherwise |
| Seed.NotationSkipsOthers | apps/backend/app/utils/seed.py:56-57 | a token that does not start with an upper-case note letter adds nothing |
| Seed.NotationAppendsNote | apps/backend/app/utils/seed.py:59-60 | a note token appends its parsed note |
| Seed.ParseNotationLine | apps/backend/app/utils/seed.py:48-62 | the token loop returns exactly the reference notes of the whitespace-split line |
| Seed.NotesToTutorialFormat | apps/backend/app/utils/seed.py:65-70 | one entry per note, in order, with that note |
| Seed.EvenTimelineGaps | apps/backend/app/utils/seed.py:65-70 | on the evenly spaced timeline each note ends 100 ms before the next one starts |
| Seed.SoundingLength | apps/backend/app/utils/seed.py:85 | a non-negative duration sounds for a non-negative time no longer than itself |
| Seed.DurationTimeline | apps/backend/app/utils/seed.py:73-88 | one entry per (note, duration) pair |
| Seed.DurationTimelineAt | apps/backend/app/utils/seed.py:79-87 | entry i keeps note i, starts after the sum of the earlier durations and sounds for nine tenths of its own |
| Seed.DurationTimelineSteps | apps/backend/app/utils/seed.py:80-87 | the first note starts at 0 and each later one a full duration after its predecessor |
| Seed.DurationTimelineOrdered | apps/backend/app/utils/seed.py:73-88 | with no negative duration, starts never decrease and no note sounds past a later one's start |
| Seed.EvenDurationsAreEvenlySpaced | apps/backend/app/utils/seed.py:65-88 | equal durations give the evenly spaced starts of `notes_to_tutorial_format`, and the total is count times duration |
| Seed.NotesWithDurationsToTutorial | apps/backend/app/utils/seed.py:73-88 | the running-time loop builds exactly the reference timeline |
| Seed.Pitches | apps/backend/app/utils/seed.py:97 | the pitches are the first components of the pairs, in order |
| Seed.CreateMelodyPattern | apps/backend/app/utils/seed.py:91-106 | the pattern's intervals are those of all pitches; its notes are the first 20 pitches (fewer when there are fewer), whose own intervals are a prefix of the stored ones; tempo and key are kept |
| Scoring.NoteNameRoundTrip | apps/backend/app/services/scoring_service.py:258-264 | reading a note name back (pitch-class name, then the signed octave) gives the MIDI number it was made from, for every integer |
| Scoring.MidiToNoteNameInjective | apps/backend/app/services/scoring_service.py:258-264 | two different MIDI numbers never get the same name |
| Scoring.MidiToNoteNameExamples | apps/backend/app/services/scoring_service.py:258-264 | 60 is "C4", 61 "C#4", 69 "A4" and 0 "C-1" |
| Scoring.EvaluateNote | apps/backend/app/services/scoring_service.py:85-165 | no expected note gives an extra, wrong, zero-point note; otherwise Correct exactly when the pitch matches within the tolerance, Early exactly when it matches and is more than the tolerance early, Late likewise when late, and the points are those of the kind (10, 5, 5, 0); a correct note says "Perfect!" exactly within 50 ms and "Good!" otherwise; a note is never Missed |
| Scoring.RightPitchNeverWrong | apps/backend/app/services/scoring_service.py:116-165 | with a non-negative tolerance, the right pitch is never a wrong note and a wrong pitch never scores ("early or late is better than wrong") |
| Scoring.LaterIsNeverEarlier | apps/backend/app/services/scoring_service.py:113-155 | playing later never turns a late note on time nor an on-time note early |
| Scoring.CalculateGrade | apps/backend/app/services/scoring_service.py:228-241 | the grade is never N/A and steps up every ten points from D at 50 to A+ at 90 |
| Scoring.GradeMonotone | apps/backend/app/services/scoring_service.py:228-241 | a higher score never gets a lower grade |
| Scoring.ScoreMessage | apps/backend/app/services/scoring_service.py:243-256 | the message uses the same thresholds as the grade, so message and grade always agree; accuracy is not consulted |
| Scoring.CalculateSessionScore | apps/backend/app/services/scoring_service.py:167-226 | no expected notes gives the zero "No notes to evaluate" result; otherwise the rounded 70/30 mix of accuracy and timing, whose timing part gives half credit to timing errors, with grade and message of the unrounded overall score |
| Scoring.SessionScoreBounds | apps/backend/app/services/scoring_service.py:195-217 | for counts a session can produce, every percentage lies in 0..100 |
| Scoring.PerfectSession | apps/backend/app/services/scoring_service.py:195-226 | all expected notes correct and nothing else scores 100/100/100 with an A+ |
| Scoring.FixingANoteNeverHurts | apps/backend/app/services/scoring_service.py:195-215 | turning a wrong note into a correct one never lowers the overall score nor the grade |
| Practice.CountsPartition | apps/backend/app/services/practice_service.py:165-174 | every logged note falls under exactly one kind, so the kinds add up to the notes logged |
| Practice.ScoreFromCounts | apps/backend/app/services/practice_service.py:176 | the running score is 10 points per correct note plus 5 per timing error |
| Practice.ParseExpectedNotes | apps/backend/app/services/practice_service.py:92-101 | one expected note per input note, in order, with a missing duration defaulting to 500 ms and the velocity kept |
| Practice.ReplacementNotes | apps/backend/app/services/practice_service.py:292-299 | one expected note per input note, in order, with the 500 ms default and no velocity |
| Practice.ExpectedAt | apps/backend/app/services/practice_service.py:150-155 | a note is awaited exactly when the position is inside the tutorial, and it is the note at that position |
| Practice.ProgressPercent | apps/backend/app/services/practice_service.py:196-199 | 0 for a tutorial without notes; otherwise a whole percentage in 0..100 that reaches 100 exactly when the position reaches the end |
| Practice.ActiveSession.constructor | apps/backend/app/services/practice_service.py:22-47 | a new session keeps its ids, notes, tempo and start time, with every counter at zero and an empty log |
| Practice.ActiveSession.CountersAddUp | apps/backend/app/services/practice_service.py:165-176 | in every reachable session state the notes played are the correct, timing-error and wrong counts together, and the score is their points |
| Practice.ActiveSession.ProcessNote | apps/backend/app/services/practice_service.py:150-188 | the note is judged against the awaited note; one counter of its kind goes up, the position advances on a right pitch, the score grows by the points and one event is logged; the position never passes the end |
| Practice.PracticeSessionService.constructor | apps/backend/app/services/practice_service.py:61-65 | the registry starts empty |
| Practice.PracticeSessionService.StartSession | apps/backend/app/services/practice_service.py:67-114 | the new session is registered under its id (replacing any earlier one), with its parsed notes and zero counters |
| Practice.PracticeSessionService.GetSession | apps/backend/app/services/practice_service.py:116-118 | a session is returned exactly when its id is registered |
| Practice.PracticeSessionService.ProcessNote | apps/backend/app/services/practice_service.py:120-188 | an unknown id gives no feedback; otherwise the registered session takes exactly the one-note update above and keeps its tutorial |
| Practice.PracticeSessionService.GetCurrentStats | apps/backend/app/services/practice_service.py:190-210 | stats exist exactly for a registered session and report its counters, tutorial length and progress percentage |
| Practice.PracticeSessionService.EndSession | apps/backend/app/services/practice_service.py:212-233 | the session leaves the registry; an unknown id gives nothing, a known one the session score of its counters over its tutorial length |
| Practice.PracticeSessionService.UpdateExpectedNotes | apps/backend/app/services/practice_service.py:271-304 | false exactly for an unknown id; otherwise the notes are replaced, the position is reset only when asked, and counters, score and log are unchanged |
| Progress.LessonProgress.constructor | apps/backend/app/models/progress.py:12-31 | a new record has the column defaults: nothing completed, progress 0, no practice time, no timestamps |
| Progress.LessonProgress.MarkSectionComplete | apps/backend/app/models/progress.py:49-55 | the section is recorded; a section already recorded changes nothing, a new one is appended and stamps the attempt time; sections stay free of duplicates |
| Progress.LessonProgress.UpdateProgress | apps/backend/app/models/progress.py:57-63 | progress is the truncated percentage of sections completed (0 without sections), reaching 100 exactly when all are completed, and only then is the completion time stamped |
| Progress.LessonProgress.AddPracticeTime | apps/backend/app/models/progress.py:65-68 | the seconds are added and the attempt time stamped |
| Progress.FinalScore | apps/backend/app/models/progress.py:170-173 | 0 with no notes played; otherwise the truncated share of correct notes, in 0..100 and 100 exactly when every played note was correct |
| Progress.PercentHundred | apps/backend/app/models/progress.py:170-173 | the truncated percentage is 100 exactly when the part reaches the whole and stays below 101/100 of it |
| Progress.PracticeSessionRecord.constructor | apps/backend/app/models/progress.py:126-152 | a stored session keeps the counts it is given, with no duration, no events and no end time |
| Progress.PracticeSessionRecord.AddNoteEvent | apps/backend/app/models/progress.py:157-162 | the event is appended to the log and counted as played |
| Progress.PracticeSessionRecord.EndSession | apps/backend/app/models/progress.py:164-173 | the end time is stamped, the duration is end minus start, and the final score is the share of correct notes |
| User.User.constructor | apps/backend/app/models/user.py:60-63 | a new account keeps name, email, phone and password hash, with zero stats and no premium or admin rights |
| User.User.CheckPassword | apps/backend/app/models/user.py:70-77 | a password checks exactly when a non-empty hash is stored and the hash function accepts the password against it |
| User.User.UpdatePracticeStats | apps/backend/app/models/user.py:84-94 | the minutes are added, the practice time stamped, and a completed lesson or learned song counted once |
| User.User.IsActivePremium | apps/backend/app/models/user.py:96-103 | active exactly when premium with no end date or an end date still in the future |
| User.User.PremiumOnlyLapses | apps/backend/app/models/user.py:96-103 | premium active at some moment was active at every earlier one |
| User.Otp.constructor | apps/backend/app/models/user.py:129-140 | a new code has no attempts and is not verified |
| User.Otp.IsExpired | apps/backend/app/models/user.py:142-145 | expired exactly when the time is strictly past the expiry |
| User.Otp.IsValid | apps/backend/app/models/user.py:147-150 | usable exactly when not expired, not verified and fewer than five attempts made |
| Gamification.ThresholdsAscending | apps/backend/app/models/gamification.py:53-74 | there are 20 thresholds, starting at 0 and strictly ascending |
| Gamification.Reached | apps/backend/app/models/gamification.py:83-87 | the scan stops inside the threshold list, never before its start |
| Gamification.ReachedBracket | apps/backend/app/models/gamification.py:83-87 | every threshold before the stopping point is reached and the one at it is not |
| Gamification.LevelIn | apps/backend/app/models/gamification.py:82-89 | the level the threshold scan computes lies in 1..20 |
| Gamification.LevelInMonotone | apps/backend/app/models/gamification.py:82-89 | for ascending thresholds, more experience never gives a lower level |
| Gamification.LevelFor | apps/backend/app/models/gamification.py:82-89 | the level of an experience total, written as a comparison chain over the threshold table, lies in 1..20 |
| Gamification.LevelScanAgrees | apps/backend/app/models/gamification.py:53-89 | the comparison chain and the scan over the threshold table give the same level for every total |
| Gamification.LevelBracket | apps/backend/app/models/gamification.py:53-89 | a non-negative total is at or above its level's threshold and below the next level's |
| Gamification.LevelMonotone | apps/backend/app/models/gamification.py:82-89 | more experience never gives a lower level |
| Gamification.MilestoneGems | apps/backend/app/models/gamification.py:160-175 | gems are paid exactly at streaks of 7, 14, 30, 60, 100 and 365 days, at least 50 each |
| Gamification.ComputeLevel | apps/backend/app/models/gamification.py:82-89 | the break-at-first-miss loop returns the level of the total |
| Gamification.UserGamification.constructor | apps/backend/app/models/gamification.py:12-42 | a new record has the column defaults: level 1, no experience, no streak, a 15-minute goal, no achievements |
| Gamification.UserGamification.AddXp | apps/backend/app/models/gamification.py:76-104 | the amount is added, the level recomputed (never lower for a non-negative amount), 25 gems paid per level gained (an empty balance counting as 50), and the result reports old and new level |
| Gamification.UserGamification.AddGems | apps/backend/app/models/gamification.py:106-110 | the amount is added to the balance, an empty balance counting as 50 |
| Gamification.UserGamification.SpendGems | apps/backend/app/models/gamification.py:112-119 | succeeds exactly when the balance (50 if empty) covers the amount, and only then is the amount taken |
| Gamification.UserGamification.UpdateStreak | apps/backend/app/models/gamification.py:121-158 | the first practice starts a streak of 1, the same day changes nothing, the next day extends it, a gap is bridged by enough freezes (spent) or else restarts at 1; the longest streak is the maximum, milestone gems are paid, and freezes never go negative when days come in order |
| Gamification.UserGamification.CheckStreakMilestone | apps/backend/app/models/gamification.py:160-175 | a milestone streak pays its gems and reports them; any other streak pays nothing |
| Gamification.UserGamification.UpdateDailyGoal | apps/backend/app/models/gamification.py:177-200 | minutes restart on a new day and accumulate within one; 20 bonus experience is paid exactly on the call that crosses the goal |
| Gamification.UserGamification.AddBonusXp | apps/backend/app/models/gamification.py:192-193 | the goal bonus is added to the experience without recomputing the level |
| Gamification.UserGamification.XpForNextLevel | apps/backend/app/models/gamification.py:202-206 | 0 at level 20; otherwise the next level's threshold minus the total, which is positive while the level matches the total |
| Gamification.RewardChest.constructor | apps/backend/app/models/gamification.py:279-289 | a new chest of the given type is closed and empty |
| Gamification.RewardChest.Open | apps/backend/app/models/gamification.py:310-319 | an opened chest returns its stored contents and stays as it was; a closed one stores the drawn contents (within its type's range) and records the opening time |
| GamificationApi.ChestTier | apps/backend/app/api/gamification.py:336-342 | gold exactly from 95, silver exactly from 80 to below 95, bronze below 80 |
| GamificationApi.ChestTierMonotone | apps/backend/app/api/gamification.py:336-342 | a better score never earns a lesser chest |
| GamificationApi.Newly | apps/backend/app/api/gamification.py:427-489 | the ids a rule table unlocks are at most one per rule, each defined by the catalogue and not yet held |
| GamificationApi.NewlyMembers | apps/backend/app/api/gamification.py:427-489 | an id is newly unlocked exactly when one of the rules for it is reached, it is not yet held and the catalogue defines it |
| GamificationApi.UnlockAchievement | apps/backend/app/api/gamification.py:492-520 | an id already held or not in the catalogue is refused with nothing changed; otherwise it is recorded and its experience (with the level recomputed) and gems are paid |
| GamificationApi.UnlockRule | apps/backend/app/api/gamification.py:438-443 | a rule is unlocked exactly when its value reaches the threshold and the achievement is due; then the record gains it, its experience (level recomputed) and its gems plus 25 per level gained; otherwise nothing changes |
| GamificationApi.GemsPaidForLevels | apps/backend/app/api/gamification.py:492-520 | the gems paid over a run of unlocks are 25 for every level gained between the first and the last plus each achievement's own gems, and the final level lies between the start and the level of the final total |
| GamificationApi.UnlockProgressStep | apps/backend/app/api/gamification.py:438-443 | one rule, unlocked or not, carries the unlocked ids, the held set and the payments over the rules so far to one more rule |
| GamificationApi.UnlockEach | apps/backend/app/api/gamification.py:438-443 | applying a rule table unlocks exactly the due ids, in order, records them, pays their total experience, leaves the level of the final total (unchanged if nothing unlocks) and pays their gems plus 25 per level gained |
| GamificationApi.StreakAchievementsExactly | apps/backend/app/api/gamification.py:427-443 | the streak achievements granted are exactly streak_7, streak_30 and streak_100 for thresholds reached, defined and not yet held |
| GamificationApi.LevelAchievementsExactly | apps/backend/app/api/gamification.py:446-461 | the level achievements granted are exactly level_5 and level_10 for levels reached, defined and not yet held |
| GamificationApi.CheckStreakAchievements | apps/backend/app/api/gamification.py:427-443 | unlocks exactly the due streak achievements, judged on the streak at the start, and pays their experience, level and gems as `UnlockEach` states |
| GamificationApi.CheckLevelAchievements | apps/backend/app/api/gamification.py:446-461 | unlocks exactly the due level achievements, judged on the level at the start, and pays their experience, level and gems as `UnlockEach` states |
| GamificationApi.CheckProgressAchievements | apps/backend/app/api/gamification.py:464-489 | unlocks exactly the due song, lesson and perfect-score achievements, and pays their experience, level and gems as `UnlockEach` states |
| GamificationApi.HandleAddXp | apps/backend/app/api/gamification.py:39-59 | a non-positive amount is refused with "Invalid XP amount" and nothing changed; otherwise the amount is added, the level recomputed with 25 gems per level gained, and then the level achievements due at the new level are unlocked and paid (experience, level and gems); the reported level is that of the total before those unlocks, never lower than before |
| GamificationApi.HandleSpendGems | apps/backend/app/api/gamification.py:81-110 | a non-positive amount is refused untouched; a balance that does not cover it is refused; success takes exactly the amount, reports the remainder, and a streak freeze purchase adds exactly one freeze |
| GamificationApi.HandleAddGems | apps/backend/app/api/gamification.py:115-138 | a non-positive amount is refused untouched; otherwise exactly the amount is added and the total reported |
| GamificationApi.HandleSetDailyGoal | apps/backend/app/api/gamification.py:241-258 | only 5..120 minutes are accepted and stored; anything else is refused and leaves the goal as it was |
| GamificationApi.HandleEarnChest | apps/backend/app/api/gamification.py:330-348 | a new closed chest of the tier the score earns |
| GamificationApi.HandleOpenChest | apps/backend/app/api/gamification.py:353-378 | an opened chest is refused and its contents kept; a closed one is opened with the drawn contents; with a user record, its experience is added, the level recomputed and the gems paid are the drawn gems plus 25 per level gained (an empty balance counting as 50); a refusal leaves the record unchanged and nothing else is written |
| AudioAnalysis.Pitches | apps/backend/app/services/audio_analysis_service.py:340 | the pitches of the notes, in order |
| AudioAnalysis.GroupEnd | apps/backend/app/services/audio_analysis_service.py:234-238 | a group takes every following note whose onset is less than the threshold after the group's first onset, and stops at the first that is not |
| AudioAnalysis.Highest | apps/backend/app/services/audio_analysis_service.py:241 | the kept note belongs to the group and no note of the group is higher |
| AudioAnalysis.HighestIsFirst | apps/backend/app/services/audio_analysis_service.py:241 | among equally high notes the earliest is kept, as `max` does |
| AudioAnalysis.MelodyLineLength | apps/backend/app/services/audio_analysis_service.py:224-246 | one output note per group, so the line is empty only for an empty input and never longer than it |
| AudioAnalysis.GroupAt | apps/backend/app/services/audio_analysis_service.py:232-244 | group k is a non-empty run ending where the onset window closes, and output note k is its highest note |
| AudioAnalysis.GroupAtLater | apps/backend/app/services/audio_analysis_service.py:232-244 | group k after the first is group k - 1 of the notes after the first group, with the same run and highest note |
| AudioAnalysis.GroupHead | apps/backend/app/services/audio_analysis_service.py:232-244 | the first group starts at the first note, ends where the onset window closes, and gives the first output note |
| AudioAnalysis.GroupStep | apps/backend/app/services/audio_analysis_service.py:232-246 | after the first group the remaining groups and output notes are those of the notes that follow it |
| AudioAnalysis.GroupShift | apps/backend/app/services/audio_analysis_service.py:232-246 | the facts about a run carry over when the group numbering shifts by one |
| AudioAnalysis.MelodyLineGroups | apps/backend/app/services/audio_analysis_service.py:219-246 | the groups cut the input into consecutive non-empty runs from the start, each closed by the onset window, and the line holds the highest note of each run |
| AudioAnalysis.CollectGroup | apps/backend/app/services/audio_analysis_service.py:234-238 | the inner loop collects exactly the notes of the group and returns where it ends |
| AudioAnalysis.ExtractMelodyLine | apps/backend/app/services/audio_analysis_service.py:219-246 | the outer loop returns the reference melody line, empty only for an empty input and never longer than it |
| AudioAnalysis.CalculateNoteIntervals | apps/backend/app/services/audio_analysis_service.py:248-261 | the successive pitch differences, one fewer than the notes |
| AudioAnalysis.TimeIntervals | apps/backend/app/services/audio_analysis_service.py:263-277 | element k is the onset gap between notes k and k + 1 in whole milliseconds, truncated toward zero |
| AudioAnalysis.TimeIntervalsOfSortedOnsets | apps/backend/app/services/audio_analysis_service.py:263-277 | onsets in order give no negative gaps, and onsets at least a millisecond apart give positive ones |
| AudioAnalysis.CalculateTimeIntervals | apps/backend/app/services/audio_analysis_service.py:263-277 | the loop returns exactly the reference gaps |
| AudioAnalysis.Take | apps/backend/app/services/audio_analysis_service.py:336-340 | a slice `s[:n]` is a prefix of s of length min(n, len s) |
| AudioAnalysis.CreateMelodyPattern | apps/backend/app/services/audio_analysis_service.py:327-353 | at most 50 pitch and time intervals and 51 notes, each a prefix of the result's; the rhythm is the bucketing of the kept time intervals; tempo and key kept |
| AudioAnalysis.PatternIntervalsMatchNotes | apps/backend/app/services/audio_analysis_service.py:334-340 | when the result's intervals come from its notes, the cut pattern's intervals are exactly those of its cut notes |
| SongRecognition.SlidingCredit | apps/backend/app/services/audio_analysis_service.py:552-562 | a position earns between 0 and 1, and full credit exactly for an exact interval (0.7 one semitone off, 0.35 two off) |
| SongRecognition.AlignCredit | apps/backend/app/services/audio_analysis_service.py:580-589 | a position earns between 0 and 1, and full credit exactly for an exact interval (0.8 one off, 0.5 two off) |
| SongRecognition.RhythmCredit | apps/backend/app/services/audio_analysis_service.py:514-518 | a rhythm position earns between 0 and 1, and full credit exactly for the same symbol (0.7 for a neighbouring category) |
| SongRecognition.Bucket | apps/backend/app/services/audio_analysis_service.py:488-496 | the category is S, M, L or X, the count of the limits 200, 500 and 1000 ms that the interval reaches |
| SongRecognition.BucketMonotone | apps/backend/app/services/audio_analysis_service.py:488-496 | a longer interval never falls in a shorter category |
| SongRecognition.BucketsClose | apps/backend/app/services/audio_analysis_service.py:526-529 | two bucketed categories are close exactly when they are neighbours in S, M, L, X |
| SongRecognition.NormalizeRhythm | apps/backend/app/services/audio_analysis_service.py:482-497 | one category per time interval, in order |
| SongRecognition.Rhythm | apps/backend/app/services/audio_analysis_service.py:482-497 | the reference categories, one per interval |
| SongRecognition.WindowSumBounds | apps/backend/app/services/audio_analysis_service.py:551-558 | a window's summed credit lies between 0 and its length |
| SongRecognition.WindowSumFull | apps/backend/app/services/audio_analysis_service.py:551-558 | a window earns full credit exactly when every position does |
| SongRecognition.OffsetCount | apps/backend/app/services/audio_analysis_service.py:546 | the scorers try at least one offset, and never more than the song's length |
| SongRecognition.BestAverage | apps/backend/app/services/audio_analysis_service.py:543-565 | the best mean over the offsets tried is never negative |
| SongRecognition.AverageBounds | apps/backend/app/services/audio_analysis_service.py:560-562 | the mean credit at one offset lies in 0..1 |
| SongRecognition.BestAverageBounds | apps/backend/app/services/audio_analysis_service.py:543-565 | the best mean is at most 1 and at least the mean at every offset tried |
| SongRecognition.BestSubsequence | apps/backend/app/services/audio_analysis_service.py:573-597 | the best normalised start score is never negative |
| SongRecognition.BestSubsequenceBounds | apps/backend/app/services/audio_analysis_service.py:576-597 | the best start score is at most 1 and at least the score at every start tried |
| SongRecognition.SlidingCreditUnit | apps/backend/app/services/audio_analysis_service.py:552-558 | the sliding credit lies in 0..1 and is 1 exactly on equality |
| SongRecognition.AlignCreditUnit | apps/backend/app/services/audio_analysis_service.py:580-589 | the alignment credit lies in 0..1 and is 1 exactly on equality |
| SongRecognition.RhythmCreditUnit | apps/backend/app/services/audio_analysis_service.py:514-518 | the rhythm credit lies in 0..1 and is 1 exactly on equality |
| SongRecognition.ScoresInUnitInterval | apps/backend/app/services/audio_analysis_service.py:499-616 | the sliding, subsequence, start and rhythm scorers all return a value in 0..1 (0 for empty input) |
| SongRecognition.AlignedCredits | apps/backend/app/services/audio_analysis_service.py:579-584 | every compared interval earns the full credit of 1 exactly when the played intervals equal the song window |
| SongRecognition.StartScoreOne | apps/backend/app/services/audio_analysis_service.py:599-616 | the opening scorer gives 1 exactly when the played intervals agree with the song's opening |
| SongRecognition.SlidingScoreOfOpening | apps/backend/app/services/audio_analysis_service.py:538-565 | played intervals that agree with the song's opening give a sliding score of 1 |
| SongRecognition.SubsequenceScoreOfOccurrence | apps/backend/app/services/audio_analysis_service.py:567-597 | played intervals occurring unchanged anywhere in the song give a subsequence score of 1 |
| SongRecognition.SumWindow | apps/backend/app/services/audio_analysis_service.py:551-558 | the inner credit loop sums exactly the window's credits |
| SongRecognition.SlidingWindowMatch | apps/backend/app/services/audio_analysis_service.py:538-565 | the offset loop returns the reference sliding score, in 0..1 |
| SongRecognition.RhythmMatch | apps/backend/app/services/audio_analysis_service.py:499-524 | the offset loop returns the reference rhythm score, in 0..1 |
| SongRecognition.SubsequenceMatch | apps/backend/app/services/audio_analysis_service.py:567-597 | the start loop returns the reference subsequence score, in 0..1 |
| SongRecognition.StartMatch | apps/backend/app/services/audio_analysis_service.py:599-616 | the loop returns the reference opening score, in 0..1 |
| SongRecognition.FuzzyDistanceBounds | apps/backend/app/services/audio_analysis_service.py:626-636 | the fuzzy edit distance is at most the longer length and at least the difference of lengths |
| SongRecognition.FuzzyDistanceSelf | apps/backend/app/services/audio_analysis_service.py:631-636 | a sequence is at distance 0 from itself |
| SongRecognition.LevenshteinScoreBounds | apps/backend/app/services/audio_analysis_service.py:618-639 | the similarity lies in 0..1 and is 1 for a non-empty sequence against itself |
| SongRecognition.FillRow | apps/backend/app/services/audio_analysis_service.py:632-636 | one row of the table is filled from the row above and its own first cell |
| SongRecognition.SetCell | apps/backend/app/services/audio_analysis_service.py:634-636 | writing a cell keeps the rows above and the first column below |
| SongRecognition.LevenshteinSimilarity | apps/backend/app/services/audio_analysis_service.py:618-639 | the table-filling loops return the reference similarity, in 0..1 |
| SongRecognition.Strategy | apps/backend/app/services/audio_analysis_service.py:467 | the match type names the scorer with the best pitch score (the opening one boosted by 10%), the earliest one on a tie |
| SongRecognition.EvaluateBounds | apps/backend/app/services/audio_analysis_service.py:428-465 | only a pattern with at least three intervals can match, and a match's confidence lies in 60..99 despite the 10% boost |
| SongRecognition.CandidatesBounds | apps/backend/app/services/audio_analysis_service.py:423-468 | no more candidates than patterns, each with confidence in 60..99 |
| SongRecognition.InsertDesc | apps/backend/app/services/audio_analysis_service.py:471 | insertion keeps the same elements plus the new one |
| SongRecognition.SortDesc | apps/backend/app/services/audio_analysis_service.py:471 | the sort is a permutation of its input |
| SongRecognition.InsertDescSorted | apps/backend/app/services/audio_analysis_service.py:471 | inserting into a list sorted by non-increasing confidence keeps it sorted |
| SongRecognition.InsertDescTies | apps/backend/app/services/audio_analysis_service.py:471 | inserting into a sorted list places the match after every match of its own confidence |
| SongRecognition.SortDescKeepsTieOrder | apps/backend/app/services/audio_analysis_service.py:471 | the sort is stable: the matches of any one confidence come out in the order they went in |
| SongRecognition.SortDescSorted | apps/backend/app/services/audio_analysis_service.py:471 | the sorted list is in non-increasing confidence |
| SongRecognition.MatchSongsProperties | apps/backend/app/services/audio_analysis_service.py:391-473 | nothing for fewer than four notes; at most five matches and no more than patterns, in non-increasing confidence, each in 60..99 |
| SongRecognition.EvaluatePattern | apps/backend/app/services/audio_analysis_service.py:423-468 | one pattern is scored exactly as the reference evaluation scores it: intervals derived from notes only when none are stored, three scorers, rhythm blended 70/30 when both rhythms exist, kept from 0.6 |
| SongRecognition.FindMatchingSongs | apps/backend/app/services/audio_analysis_service.py:391-473 | the matcher returns the reference result: empty for fewer than four notes, at most five, sorted by confidence, each in 60..99 |
| TutorialParser.Values | apps/backend/app/services/tutorial_parser.py:126-127 | each digit string is read as its decimal value, in order |
| TutorialParser.Numbers | apps/backend/app/services/tutorial_parser.py:126 | every number found in the text is non-negative |
| TutorialParser.KeepInRange | apps/backend/app/services/tutorial_parser.py:127 | keeps exactly the numbers in 36..96, never adds one, keeps all when all are in range, and is empty exactly when none is |
| TutorialParser.DigitRunLower | apps/backend/app/services/tutorial_parser.py:91 | lower-casing changes no run of non-digits |
| TutorialParser.LowerSuffix | apps/backend/app/services/tutorial_parser.py:91 | lower-casing commutes with dropping a prefix |
| TutorialParser.LowerDigits | apps/backend/app/services/tutorial_parser.py:91 | lower-casing keeps a leading run of digits |
| TutorialParser.DigitTokensLower | apps/backend/app/services/tutorial_parser.py:91-103 | the numbers of the lower-cased text are those of the text |
| TutorialParser.DigitTokensLStrip | apps/backend/app/services/tutorial_parser.py:91-103 | stripping leading whitespace keeps the numbers |
| TutorialParser.DigitTokensRStrip | apps/backend/app/services/tutorial_parser.py:91-103 | stripping trailing whitespace keeps the numbers |
| TutorialParser.NumbersOfDetectionText | apps/backend/app/services/tutorial_parser.py:91-103 | format detection, which reads the stripped lower-cased text, sees the same numbers as the MIDI reader reads from the raw input |
| TutorialParser.DetectFormat | apps/backend/app/services/tutorial_parser.py:89-122 | the input is classed as JSON exactly when its stripped, lower-cased text starts with '{' or '[' and decodes as any JSON value; otherwise MIDI, sargam, Western, numbered or unknown in that order of tests |
| TutorialParser.DetectFormatFixed | apps/backend/app/services/tutorial_parser.py:89-122 | corrected detection: JSON exactly when the text starts with '{' or '[' and decodes as a JSON object |
| TutorialParser.DetectMidi | apps/backend/app/services/tutorial_parser.py:101-105 | text of digits, whitespace, commas and brackets whose numbers all lie in 36..96 is MIDI unless it decoded as JSON |
| TutorialParser.PitchClasses | apps/backend/app/services/tutorial_parser.py:378 | one pitch class in 0..11 per note, the note modulo 12 |
| TutorialParser.Firsts | apps/backend/app/services/tutorial_parser.py:381-383 | the dict's keys are exactly the distinct pitch classes |
| TutorialParser.FirstIndex | apps/backend/app/services/tutorial_parser.py:381-383 | the index of the first occurrence |
| TutorialParser.FirstsOrdered | apps/backend/app/services/tutorial_parser.py:381-383 | the dict's keys are in order of first appearance |
| TutorialParser.CountMap | apps/backend/app/services/tutorial_parser.py:381-383 | the dict maps exactly the pitch classes present to their number of occurrences |
| TutorialParser.FirstMaxIndex | apps/backend/app/services/tutorial_parser.py:387 | the key chosen by max has the largest count, and every key before it a strictly smaller one |
| TutorialParser.FirstsCounted | apps/backend/app/services/tutorial_parser.py:381-387 | every key of the dict has a count |
| TutorialParser.MostFrequent | apps/backend/app/services/tutorial_parser.py:387 | the chosen pitch class occurs among the notes |
| TutorialParser.Tonic | apps/backend/app/services/tutorial_parser.py:377-387 | the tonic is a pitch class in 0..11 |
| TutorialParser.MostFrequentIsMax | apps/backend/app/services/tutorial_parser.py:387 | no pitch class occurs more often than the chosen one |
| TutorialParser.TonicIsMostFrequent | apps/backend/app/services/tutorial_parser.py:377-390 | the tonic is a pitch class of the notes and none is more frequent |
| TutorialParser.FirstMaxIsFirstOfTies | apps/backend/app/services/tutorial_parser.py:387 | of the equally frequent pitch classes, the chosen one appears first |
| TutorialParser.FirstMaxBeforeTies | apps/backend/app/services/tutorial_parser.py:387 | max never picks a key after an equally frequent one |
| TutorialParser.FirstsOrderedAt | apps/backend/app/services/tutorial_parser.py:381-383 | keys earlier in the dict appeared earlier in the notes |
| TutorialParser.TonicIsFirstOfTies | apps/backend/app/services/tutorial_parser.py:377-390 | ties go to the pitch class that appears first |
| TutorialParser.CountAbsent | apps/backend/app/services/tutorial_parser.py:383 | an absent pitch class has count 0 |
| TutorialParser.FirstsPrefixStep | apps/backend/app/services/tutorial_parser.py:382-383 | one more note adds its pitch class as the last key exactly when it is new |
| TutorialParser.CountsStep | apps/backend/app/services/tutorial_parser.py:382-383 | one loop step keeps the dict equal to the counts of the pitch classes seen |
| TutorialParser.DetectKey | apps/backend/app/services/tutorial_parser.py:372-392 | the counting loop returns "C" without notes and else the name of the most frequent pitch class, ties to the first seen |
| TutorialParser.ParseMidiInput | apps/backend/app/services/tutorial_parser.py:124-139 | the notes are exactly the numbers of the text in 36..96, in order, with one interval fewer than notes |
| TutorialParser.DetectedMidiKeepsAll | apps/backend/app/services/tutorial_parser.py:101-105 | input detected as MIDI loses none of its numbers in the MIDI reader |
| TutorialParser.OctaveMarker | apps/backend/app/services/tutorial_parser.py:177-185 | a leading '.' lowers by 12 and is removed, else a trailing "'" raises by 12 and is removed, else nothing changes |
| TutorialParser.OctaveMarkers | apps/backend/app/services/tutorial_parser.py:177-185 | a bare token, a token after '.' and a token before "'" are split back into exactly that token |
| TutorialParser.SargamMarkersIgnored | apps/backend/app/services/tutorial_parser.py:187-195 | as written, a plain syllable reads the same after '.', bare, and before "'" |
| TutorialParser.SargamMarkersIgnoredForSa | apps/backend/app/services/tutorial_parser.py:187-195 | as written, ".sa", "sa" and "sa'" all read as 60 |
| TutorialParser.SargamMarkerIgnoredOnKomal | apps/backend/app/services/tutorial_parser.py:178-195 | as written, ".re_komal" and "re_komal" both read 61, because the komal form is a key of the table at line 28; corrected, ".re_komal" reads 49 |
| TutorialParser.SargamMarkersShift | apps/backend/app/services/tutorial_parser.py:170-195 | corrected, '.' reads a syllable an octave lower and "'" an octave higher |
| TutorialParser.SargamUpperReDeparts | apps/backend/app/services/tutorial_parser.py:24-26 | corrected, "re'" reads 74, where the table's own entry is 73 |
| TutorialParser.SargamMarkersShiftForSa | apps/backend/app/services/tutorial_parser.py:170-195 | corrected, ".sa" is 48, "sa" 60 and "sa'" 72 |
| TutorialParser.ReadSargamToken | apps/backend/app/services/tutorial_parser.py:173-195 | one loop step reads a token as the corrected sargam reading |
| TutorialParser.SargamNotesStep | apps/backend/app/services/tutorial_parser.py:172-195 | each token adds its note, when it has one, at the end |
| TutorialParser.ParseSargamInput | apps/backend/app/services/tutorial_parser.py:161-208 | corrected (Finding 4): the loop returns one note per token the corrected reading accepts, in order, their intervals, tempo 120 and the detected key |
| TutorialParser.WesternMatches | apps/backend/app/services/tutorial_parser.py:213-214 | each match is a note letter with an optional accidental and a single-digit octave |
| TutorialParser.WesternNotes | apps/backend/app/services/tutorial_parser.py:217-221 | one note per match: the name's pitch at octave 4, or 60 when unknown, moved by twelve per octave |
| TutorialParser.WesternExamples | apps/backend/app/services/tutorial_parser.py:213-221 | "C4" is 60, "A#3" is 58, and "C4 A#3" matches those two |
| TutorialParser.ParseWesternInput | apps/backend/app/services/tutorial_parser.py:210-234 | the loop returns one note per match, in order, with the detected key |
| TutorialParser.NumberedNotes | apps/backend/app/services/tutorial_parser.py:241-247 | every numbered note lies in 48..83 |
| TutorialParser.ParseNumberedInput | apps/backend/app/services/tutorial_parser.py:236-260 | the loop returns one note per table token, each in 48..83, always in C |
| TutorialParser.LetterInTable | apps/backend/app/services/tutorial_parser.py:355-358 | every note letter in either case is in the Western table, at 60..71 |
| TutorialParser.LetterNote | apps/backend/app/services/tutorial_parser.py:357-358 | a letter's note lies in 60..71 |
| TutorialParser.LetterNotes | apps/backend/app/services/tutorial_parser.py:355-358 | every letter note lies in 60..71 |
| TutorialParser.BestEffortFallback | apps/backend/app/services/tutorial_parser.py:347-370 | letters are read only when no whole number lies in 36..96; every note read lies in 36..96 |
| TutorialParser.LetterNotesStep | apps/backend/app/services/tutorial_parser.py:355-358 | one more word adds its Western-table note exactly when it is a single note letter |
| TutorialParser.BestEffortParse | apps/backend/app/services/tutorial_parser.py:347-370 | the fallback reader returns the reference notes, their intervals, and the key only when there are notes |
| TutorialParser.JsonTutorial | apps/backend/app/services/tutorial_parser.py:141-159 | reading succeeds exactly on a JSON object; any other JSON value has no fields and fails |
| TutorialParser.JsonIntervals | apps/backend/app/services/tutorial_parser.py:145-151 | supplied intervals are kept; missing or empty ones become the steps between the notes |
| TutorialParser.ParseJsonInput | apps/backend/app/services/tutorial_parser.py:141-159 | the JSON reader returns the reference reading |
| TutorialParser.BraceSpan | apps/backend/app/services/tutorial_parser.py:338-345 | an extracted span starts with '{' and ends with '}' |
| TutorialParser.BraceSpanOutermost | apps/backend/app/services/tutorial_parser.py:339-342 | the span runs from the first '{' to the last '}' |
| TutorialParser.BraceSpanFails | apps/backend/app/services/tutorial_parser.py:341-345 | extraction fails exactly when no '{' comes before a '}' |
| TutorialParser.ExtractJson | apps/backend/app/services/tutorial_parser.py:328-345 | after trimming and removing a code fence, the text handed to the JSON decoder runs from the first `{` to the last `}` |
| TutorialParser.ListOfNotesFails | apps/backend/app/services/tutorial_parser.py:73-78 | as written, a bracketed list that decodes as a JSON array is routed to the JSON reader and fails |
| TutorialParser.ListOfNotesFailsExample | apps/backend/app/services/tutorial_parser.py:73-78 | as written, "[60, 62, 64]" fails |
| TutorialParser.ParseDirectNeverNotAnObject | apps/backend/app/services/tutorial_parser.py:53-87 | corrected, dispatch never hands a non-object to the JSON reader |
| TutorialParser.ListOfNotesReadAsMidi | apps/backend/app/services/tutorial_parser.py:53-87 | corrected, a bracketed list of notes in 36..96 is read as MIDI and keeps every number |
| TutorialParser.ParseTutorialInput | apps/backend/app/services/tutorial_parser.py:53-87 | dispatch runs the reader for the format found by the corrected detection, or reports that the language model is needed |
| SongsApi.AllowedAudioFile | apps/backend/app/api/songs.py:19-23 | a name is accepted exactly when it has a dot and the text after its last dot, lower-cased, is an audio extension |
| SongsApi.LastDot | apps/backend/app/api/songs.py:23 | splitting at the last dot finds the one dot with no dot after it, so that dot decides |
| SongsApi.LastExtensionDecides | apps/backend/app/api/songs.py:22-23 | appending "." and an extension makes a name accepted exactly when that extension is an audio one, whatever came before |
| SongsApi.TutorialAccess | apps/backend/app/api/songs.py:127-164 | the tutorial is refused with 403 exactly when the song is not free, the caller is not premium and neither holds an unlock record nor created it (user id 0 counting as signed out) |
| SongsApi.AccessMonotone | apps/backend/app/api/songs.py:147-164 | more unlock records or a premium flag never take a tutorial away |
| SongsApi.SongCost | apps/backend/app/api/songs.py:305-309 | beginner songs cost 100 gems, intermediate 200, advanced 300 and any other difficulty 150 |
| SongsApi.UnlockOutcomeAsWritten | apps/backend/app/api/songs.py:314-352 | as written: an unlock succeeds exactly when the song is not free, not yet unlocked and the balance is present and covers the cost; with no balance the comparison fails |
| SongsApi.UnlockOutcome | apps/backend/app/api/songs.py:314-372 | corrected: an empty balance counts as the 50-gem default; success exactly when not free, not unlocked and affordable, at the song's cost; a refusal for gems reports the cost and the smaller balance |
| SongsApi.UnlockEmptyBalanceFails | apps/backend/app/api/songs.py:340-352 | both agree whenever a balance is stored; on a fresh record the code as written fails where the corrected one refuses for want of gems |
| SongsApi.UnlockOnlyOnce | apps/backend/app/api/songs.py:325-335 | once unlocked, a second unlock is refused as already unlocked whatever the balance |
| SongsApi.UnlockSong | apps/backend/app/api/songs.py:314-372 | corrected (Finding 3): a refusal leaves the balance and the records unchanged; a success spends exactly the cost, leaves a non-negative balance, adds the record and reports the remaining gems |
| SongsApi.UnlockGrantsAccess | apps/backend/app/api/songs.py:127-164 | before an unlock a non-premium non-creator is refused the tutorial; after it the holder is let in |
| SongsApi.Best | apps/backend/app/api/songs.py:231-232 | the stored best accuracy is the larger of the stored and the reported one, and one of them |
| SongsApi.BestOfIsMaximum | apps/backend/app/api/songs.py:231-232 | after any run of reports the best accuracy is the largest one reported, and is present exactly when one was reported |
| SongsApi.AccumulateAsWritten | apps/backend/app/api/songs.py:233-234 | as written: seconds are added only to a present total; an empty total fails |
| SongsApi.Accumulate | apps/backend/app/api/songs.py:233-234 | corrected: the total grows by exactly the reported seconds, an empty total counting as 0, and agrees with the code as written whenever a total is stored |
| SongsApi.FirstPracticeReport | apps/backend/app/api/songs.py:223-234 | a new record's first report of seconds fails as written and, corrected, records exactly those seconds |
| SongsApi.SongProgress.constructor | apps/backend/app/api/songs.py:223-225 | a record made on the first report has every column empty until it is stored |
| SongsApi.SongProgress.Update | apps/backend/app/api/songs.py:227-236 | corrected (Finding 5): reported tutorial and overall progress overwrite, best accuracy is a running maximum, reported seconds add to the total and stamp the practice time, and absent fields change nothing |
| SongsApi.Recognize | apps/backend/app/api/songs.py:567-604 | no notes field is a 400; a non-list or fewer than five notes gives no matches; otherwise the matcher's result for the catalogue's patterns |
| AdminApi.Merge | apps/backend/app/api/admin.py:190-193 | each of notes, intervals, tempo, key and sections the request left missing or empty (0 for tempo) takes the parser's value; filled fields and the rest of the request are kept |
| AdminApi.MergeProvidedWins | apps/backend/app/api/admin.py:190-193 | merging twice with the same parse changes nothing, and filled notes and intervals win over any parse |
| AdminApi.CreatedPattern | apps/backend/app/api/admin.py:224-238 | the stored pattern has notes and intervals defaulting to empty, tempo to 120 and key to "C"; with notes and no intervals, the intervals are the notes' differences |
| AdminApi.CreatedIntervalsDerived | apps/backend/app/api/admin.py:232-238 | derived intervals number one fewer than the notes, interval i being note i + 1 minus note i |
| AdminApi.CreateTutorial | apps/backend/app/api/admin.py:163-264 | a failed parse of a non-empty raw input and a missing title are refused with 400; otherwise the pattern is stored and a tutorial row is made exactly when there are sections or notes |
| AdminApi.UpdatedPattern | apps/backend/app/api/admin.py:306-324 | given notes replace the stored ones and, when at least two, recompute the intervals; given intervals override them; given tempo or key replace the stored ones; everything else is kept |
| AdminApi.UpdateOverridesStored | apps/backend/app/api/admin.py:307-319 | once notes are given, the stored notes no longer matter, nor the stored intervals when intervals or two or more notes are given |
| AdminApi.SongRecord.constructor | apps/backend/app/api/admin.py:269-271 | the record holds the given tempo, key and pattern |
| AdminApi.SongRecord.Update | apps/backend/app/api/admin.py:285-324 | a given tempo and key replace the song's, and the pattern is rewritten as the updated pattern only when notes or intervals are given |
| AdminApi.AddUserGems | apps/backend/app/api/admin.py:471-496 | a missing or non-positive amount is refused with 400 and the balance kept; otherwise the balance rises by exactly the amount and both balances are reported |
| AdminApi.SetUserPremium | apps/backend/app/api/admin.py:501-521 | the flag defaults to granting and the length to 30 days; a grant of more than zero days ends that many days from now, a revocation clears the end, a grant of zero or fewer days keeps the old end |
| AdminApi.PremiumGrantWindow | apps/backend/app/api/admin.py:509-511 | a grant of d days makes the account premium from now until d days later and not after |
| AdminApi.PremiumRevoked | apps/backend/app/api/admin.py:512-513 | a revoked account is not premium at any time |
| AdminApi.DeleteUser | apps/backend/app/api/admin.py:543-561 | an unknown account is 404, deleting one's own account is 400, otherwise exactly that account is removed |
| AdminApi.CallerSurvivesDeletes | apps/backend/app/api/admin.py:547-550 | whatever deletions an admin issues, their own account survives |
| AuthApi.ValidPhoneLength | apps/backend/app/api/auth.py:38-39 | an accepted phone number has at least ten characters |
| AuthApi.NatToStringLength | apps/backend/app/api/auth.py:85 | a number of k digits is written with k characters |
| AuthApi.CodeOf | apps/backend/app/api/auth.py:84-85 | a drawn code is six digits that read back as the draw |
| AuthApi.OtpTable.constructor | apps/backend/app/api/auth.py:81-94 | the table starts empty |
| AuthApi.OtpTable.SendOtp | apps/backend/app/api/auth.py:72-105 | an invalid phone is refused with 400 and nothing changes; otherwise every unused code of the phone is deleted and one new six-digit code, unused and with no attempts, is issued for ten minutes and is the phone's only unused code |
| AuthApi.GuessAsWritten | apps/backend/app/api/auth.py:129-143 | as written: an expired code is refused untouched; otherwise the attempt is counted and the guess is accepted exactly when it matches, however many attempts came before |
| AuthApi.Guess | apps/backend/app/api/auth.py:129-143 | corrected: after five attempts even the right guess is refused as too many attempts; below that the guess is handled as written; an accepted guess always matched within the limit |
| AuthApi.RunAcceptsOnlyEarlyGuess | apps/backend/app/api/auth.py:129-143 | with the attempt limit, a code is accepted only when one of the first five guesses is right |
| AuthApi.SixthGuessAcceptedAsWritten | apps/backend/app/api/auth.py:129-143 | as written, five wrong guesses and then the right one log in; with the limit they do not |
| AuthApi.NewUserName | apps/backend/app/api/auth.py:151-152 | a new account takes the given name, or "User" and the last four characters of the phone |
| AuthApi.LatestExists | apps/backend/app/api/auth.py:121-124 | among issued codes there is always a most recent one |
| AuthApi.FindLatest | apps/backend/app/api/auth.py:120-127 | the lookup finds no code exactly when the phone has no unused one, and otherwise the most recently issued unused one |
| AuthApi.VerifyOtp | apps/backend/app/api/auth.py:109-170 | a malformed request and a phone without an unused code are refused with nothing created; the code checked is the phone's latest unused one, its counters move as the corrected guess says, and no other code changes; an accepted guess logs in the phone's account or creates one with the default name and a 100-gem record |
| AuthApi.SentCodeIsLatest | apps/backend/app/api/auth.py:81-94 | right after sending, the new code is the one a guess is checked against |
| Numeric.Trunc | apps/backend/app/services/audio_analysis_service.py:274 | `int()` of a float drops the fraction toward zero: the result lies within one of the value, on the side of zero |
| Numeric.RoundHalfEven | apps/backend/app/services/scoring_service.py:215-217 | `round()` gives an integer within one half of the value, an exact half going to the even neighbour |
| Numeric.Percent | apps/backend/app/models/progress.py:60 | the truncated percentage of a non-negative part is non-negative, at most 100 when the part does not exceed the whole, and reaches 100 exactly when the part reaches the whole |
| Seed.EvenDurationsTotal | apps/backend/app/utils/seed.py:81-87 | notes all lasting the same spacing add up to their count times the spacing |

## Left out

- Browser-side recognition (pitch estimation, note stabilising, session timers, local-alignment and n-gram matchers, score fusion): no backend file implements it.
- Audio processing in `AudioAnalysisService` (`extract_melody`, conversion to WAV, key and tempo detection): it calls librosa, basic-pitch, numpy, ffmpeg and temporary files. Its output, a list of extracted notes, is a parameter.
- `AudioAnalysisService.create_tutorial_notes`: its sixteenth-note quantisation is float arithmetic whose rounding the model does not follow.
- The external recognisers (AudD, Claude, OpenAI) and `TutorialParserService._parse_with_ai`: network and language-model calls. The parser's entry point reports `NeedsLanguageModel` where the source would call the model. `_extract_json` and `_best_effort_parse`, which the language-model path uses, are modelled.
- Database access: queries, commits, `jsonify`, JWT handling and `to_dict`. Rows a handler looks up are parameters (the catalogue's patterns, the unlock records, the account map, the code table). A handler's record is passed in as an existing record, built with the column defaults.
- `delete_user`: the deletion of the user's gamification, lesson, song and session rows is not modelled; the model removes the account from a set of accounts.
- `PracticeSessionService.end_session`: only the removal from the session table and the score card are modelled; the database writes and the user-statistics update are left out.
- The seeding and fixing scripts' driver loops (`seed_database`, `seed_achievements`, `seed_songs.py`, the scripts' main functions): they walk directories and write the database.
- The read-only handlers (song lists, search, popular, leaderboard, profile, lessons, progress) and the socket plumbing: they only query and return.
- `send_otp`'s "user exists" flag and `verify_otp`'s tokens, last-login time and creation timestamps: the model returns the account and keeps no clock apart from the code's expiry.
- `set_user_admin`, signup, password login, refresh and logout: password hashing and JWT issue are outside the model.
- Float rounding: scores and times are modelled with exact `real` arithmetic. `int()` is truncation toward zero and `round()` is round-half-even on exact values, so artefacts such as `0.29 * 100 == 28.999…` are not reproduced.
- Text handling is ASCII only: case mapping, `\s`, `\d` and `\w` cover ASCII characters, and there is no Unicode case folding.
- The JSON decoder: `json.loads` is a parameter giving the decoded document, or none when decoding fails.
- `SongsApi.Recognize`: any `notes` value that is not a list is one case, `NotAList`, and the notes of a list are integers.
- `SongRecognition.FindMatchingSongs`: the in-place sort of the match list is modelled as a stable insertion sort on the value; ties keep the catalogue order, as Python's stable sort does (`SortDescKeepsTieOrder`).
- `GamificationApi.HandleAddXp`: a user without a gamification record gets one made on the spot (apps/backend/app/api/gamification.py:48-51) whose columns stay empty until it is stored, so `add_xp` then fails adding to an empty total (apps/backend/app/models/gamification.py:79). The model is handed a record with the column defaults and succeeds; that failure of a new user's first call is not modelled.
- `Gamification.UserGamification.UpdateStreak`: requires a present gem balance. As written, an empty balance fails only when the streak lands on a milestone, and that failure path is not modelled. Likewise, the streak update of a user without a record (apps/backend/app/api/gamification.py:174-177) compares the new streak with an empty longest streak and fails (apps/backend/app/models/gamification.py:148); the model is handed a record with the column defaults, and that failure is not modelled.
- `Gamification.UserGamification.UpdateDailyGoal`: the daily-goal update of a user without a record (apps/backend/app/api/gamification.py:228-231) compares the minutes with an empty goal and fails (apps/backend/app/models/gamification.py:187); the model is handed a record with the column defaults, and that failure is not modelled.
- `Seed.ParseNoteToMidi`: a note string that is empty once stripped gives `None` where the source raises an exception.
- `SeedBollywood.CreateTutorialNotes`: requires a non-zero tempo, because the source divides by it and raises on zero.
- `TutorialParser.ParseNumberedInput`: with ASCII digits, the source's second branch (a single digit 1 to 7) only admits tokens the first branch already admits, so it is not modelled separately. `str.isdigit()` also accepts other Unicode digits, such as an Arabic-Indic one, and for those the branch raises KeyError (apps/backend/app/services/tutorial_parser.py:246-247); that exception is not modelled, as text is ASCII only.
- `SongsApi.SongProgress.Update`: the handler tests whether each key is present (apps/backend/app/api/songs.py:227-233), and the model reads a present JSON null as an absent key. As written, a null `tutorialId` or `overallProgress` stores None, a null `bestAccuracy` raises once an accuracy is stored, and a null `practiceTimeSeconds` raises; these cases are not modelled.
- `AdminApi.CreateTutorial`: the `useAI` flag is not modelled. It only changes the reported `aiParsed` flag, for a request whose `rawInput` is present but empty.
- `AdminApi.CreatedPattern`: the model reads a field present with a JSON null as an absent field. As written, `dict.get` applies its default only to a missing key (apps/backend/app/api/admin.py:212-213, 226-229). So a null `tempo`, `key` or `notes` is stored as None, where the model stores 120, "C" or []. A null `intervals` beside notes still gets the derived intervals (admin.py:233-237), as in the model. The null case is not modelled.
- `AdminApi.CreateTutorial`: stores `CreatedPattern`'s pattern, so it has the same gap: a request field present with a JSON null is read as absent, and the stored pattern holds the default where the source stores None.
- `AdminApi.UpdatedPattern`: the handler tests whether each key is present (apps/backend/app/api/admin.py:306-322), and the model reads a present JSON null as an absent key. As written, a null `notes`, `intervals`, `tempo` or `key` sets that pattern entry to None, and a null `notes` or `intervals` alone still rewrites the pattern. The model keeps the old entries instead. The null case is not modelled.
- `AdminApi.SongRecord.Update`: the same gap for the columns. A null `tempo` or `key` overwrites the column with None (apps/backend/app/api/admin.py:285-288), where the model keeps the old value.
- `AdminApi.AddUserGems`: `{"amount": null}` reaches `None <= 0` (apps/backend/app/api/admin.py:476-479), which raises TypeError, a server error. The model reads the null as absent and answers 400. The null case is not modelled.
- `AdminApi.SetUserPremium`: `{"isPremium": null}` stores None as the flag and, since `not None` holds, clears the end date (apps/backend/app/api/admin.py:506-513). The model reads the null as absent and grants 30 days. A grant with `{"days": null}` raises TypeError at `None > 0` (admin.py:510), where the model grants 30 days. The null case is not modelled.
- `TutorialParser.JsonTutorial`: "succeeds exactly on a JSON object" holds only with a null field read as absent. As written (apps/backend/app/services/tutorial_parser.py:145-158), a null `intervals` beside non-empty notes raises AttributeError at `None.append`. A null `notes`, `tempo`, `key` or `sections` is returned as None rather than the default. The null case is not modelled.
- `TutorialParser.JsonIntervals`: its derived-intervals clause covers a null `intervals` too, where the source raises (apps/backend/app/services/tutorial_parser.py:146-151).
- `TutorialParser.ParseJsonInput`: computes `JsonTutorial`, so it has the same null gap.
- `GamificationApi.HandleSpendGems`: a missing gamification record (a 404 in the source) is left to the caller, which passes an existing record.

## Findings

| source | as written | input that shows it | evidently intended | confidence | as-written member | corrected member |
|---|---|---|---|---|---|---|
| apps/backend/app/api/auth.py:129-143 | a matching code is accepted however many attempts came before; the attempt count only shapes the refusal message | five wrong guesses, then the right code: the sixth guess logs in | once five attempts are used the code is spent, as the code's own validity rule says (apps/backend/app/models/user.py:147-150) | medium; not executed | AuthApi.SixthGuessAcceptedAsWritten | AuthApi.RunAcceptsOnlyEarlyGuess |
| apps/backend/app/services/tutorial_parser.py:94-99 | any text starting with '{' or '[' that decodes as JSON is sent to the JSON reader, which calls `.get` on the decoded value | "[60, 62, 64]" decodes as a list, is routed to the JSON reader and fails there | only a JSON object goes to the JSON reader; a bracketed list of note numbers reaches the MIDI test, whose character class admits brackets | high; not executed | TutorialParser.ListOfNotesFails | TutorialParser.ListOfNotesReadAsMidi |
| apps/backend/app/api/songs.py:341-347 | a gamification record made on the spot has no gem balance until it is stored, and the balance is compared with the cost | a user without a gamification record unlocks a song that is not free: `None < cost` fails | the empty balance counts as the 50-gem default, as `spend_gems` treats it | medium; not executed | SongsApi.UnlockEmptyBalanceFails | SongsApi.UnlockOutcome |
| apps/backend/app/services/tutorial_parser.py:178-195 | the marker is removed and the remaining token is looked up in the table before the octave shift is applied, so every table key (the seven syllables and the komal and tivra forms such as "re_komal") reads unshifted; only a suffixed spelling that is not itself a key, such as ".sa_komal" (48), is shifted | ".sa", "sa" and "sa'" all read as 60, and ".re_komal" as 61 | a leading '.' reads an octave lower (48) and a trailing "'" an octave higher (72). The table's "re'": 73 (line 26) departs from this rule, which its other thirteen marked entries keep; it is taken as a slip for 74, and the corrected reading gives 74 (TutorialParser.SargamUpperReDeparts) | high; not executed | TutorialParser.SargamMarkersIgnored | TutorialParser.SargamMarkersShift |
| apps/backend/app/api/songs.py:223-234 | a progress record made on the spot has no practice total until it is stored, and the reported seconds are added to it | the first progress report for a song, carrying `practiceTimeSeconds`: `None += seconds` fails | the total starts from the column default 0 | medium; not executed | SongsApi.FirstPracticeReport | SongsApi.Accumulate |
