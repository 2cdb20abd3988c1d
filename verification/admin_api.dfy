/**
 * The decision rules of the administrator endpoints: how a new song's
 * melody pattern is assembled from the request and the tutorial parser,
 * how an edit rewrites it, and the guards on granting gems, granting or
 * revoking premium and deleting accounts.
 */
module AdminApi {
  import opened Wrappers
  import Melody
  import TutorialParser
  import Gamification
  import User

  /** Seconds in a day, the unit of a premium grant. */
  const SECONDS_PER_DAY := 86400

  // ---------------------------------------------------------------------------
  // Creating a song
  // ---------------------------------------------------------------------------

  /**
   * The fields of a create request the handler reads; `None` is a field
   * the request leaves out. A field present with a JSON null is not
   * distinguished from one left out.
   */
  datatype CreateRequest = CreateRequest(
    title: Option<string>, rawInput: Option<string>,
    notes: Option<seq<int>>, intervals: Option<seq<int>>, tempo: Option<int>,
    key: Option<string>, sections: Option<seq<string>>)

  /** A melody pattern as stored; `None` is a key the stored object lacks. */
  datatype StoredPattern = StoredPattern(
    notes: Option<seq<int>>, intervals: Option<seq<int>>, tempo: Option<int>, key: Option<string>)

  /** What a successful create stores: the pattern, whether a tutorial row is made, and whether the parser ran. */
  datatype Created = Created(pattern: StoredPattern, hasTutorial: bool, aiParsed: bool)

  /** A field Python reads as true: present and not empty (or not zero). */
  predicate Filled<T>(f: Option<seq<T>>) { f.Some? && f.value != [] }
  predicate FilledInt(f: Option<int>) { f.Some? && f.value != 0 }

  /**
   * The parsed-field merge: each of notes, intervals, tempo, key and
   * sections the request left missing or empty takes the parser's value;
   * every field the request filled is kept.
   */
  function Merge(req: CreateRequest, parsed: TutorialParser.Tutorial): (m: CreateRequest)
    ensures m.title == req.title && m.rawInput == req.rawInput
    ensures m.notes == if Filled(req.notes) then req.notes else Some(parsed.notes)
    ensures m.intervals == if Filled(req.intervals) then req.intervals else Some(parsed.intervals)
    ensures m.tempo == if FilledInt(req.tempo) then req.tempo else Some(parsed.tempo)
    ensures m.key == if Filled(req.key) then req.key else Some(parsed.key)
    ensures m.sections == if Filled(req.sections) then req.sections else Some(parsed.sections)
  {
    req.(
      notes := if Filled(req.notes) then req.notes else Some(parsed.notes),
      intervals := if Filled(req.intervals) then req.intervals else Some(parsed.intervals),
      tempo := if FilledInt(req.tempo) then req.tempo else Some(parsed.tempo),
      key := if Filled(req.key) then req.key else Some(parsed.key),
      sections := if Filled(req.sections) then req.sections else Some(parsed.sections))
  }

  /** Merging again with the same parse changes nothing, and the request's filled fields win over any parse. */
  lemma MergeProvidedWins(req: CreateRequest, parsed: TutorialParser.Tutorial, other: TutorialParser.Tutorial)
    ensures Merge(Merge(req, parsed), parsed) == Merge(req, parsed)
    ensures Filled(req.notes) ==> Merge(req, other).notes == Merge(req, parsed).notes
    ensures Filled(req.intervals) ==> Merge(req, other).intervals == Merge(req, parsed).intervals
  {
  }

  /**
   * The stored pattern of a create: notes and intervals default to empty,
   * tempo to 120 and key to "C"; with notes and no intervals the intervals
   * are the notes' successive differences.
   */
  function CreatedPattern(data: CreateRequest): (p: StoredPattern)
    ensures p.notes == Some(data.notes.GetOr([])) && p.tempo == Some(data.tempo.GetOr(120)) && p.key == Some(data.key.GetOr("C"))
    ensures p.intervals == if Filled(data.notes) && !Filled(data.intervals) then Some(Melody.Intervals(data.notes.value))
                           else Some(data.intervals.GetOr([]))
  {
    var notes := data.notes.GetOr([]);
    StoredPattern(
      Some(notes),
      if notes != [] && !Filled(data.intervals) then Some(Melody.Intervals(notes)) else Some(data.intervals.GetOr([])),
      Some(data.tempo.GetOr(120)),
      Some(data.key.GetOr("C")))
  }

  /**
   * Derived intervals are exactly the successive differences: one fewer
   * than the notes, interval i being note i + 1 minus note i.
   */
  lemma CreatedIntervalsDerived(data: CreateRequest)
    requires Filled(data.notes) && !Filled(data.intervals)
    ensures var p := CreatedPattern(data);
      && |p.intervals.value| == |data.notes.value| - 1
      && forall i :: 0 <= i < |p.intervals.value| ==> p.intervals.value[i] == data.notes.value[i + 1] - data.notes.value[i]
  {
    Melody.IntervalsShape(data.notes.value);
  }

  /**
   * `create_tutorial`: a non-empty `rawInput` sends the request through
   * the tutorial parser (whose outcome is `parsed`) and a failed parse is
   * refused with 400; a request without a title is refused with 400;
   * otherwise the song is stored with its melody pattern, and a tutorial
   * row is made when it has sections or notes.
   */
  method CreateTutorial(req: CreateRequest, parsed: Result<TutorialParser.Tutorial, string>) returns (r: Result<Created, int>)
    ensures var useAi := Filled(req.rawInput);
      var data := if useAi && parsed.Ok? then Merge(req, parsed.value) else req;
      && (r.Err? <==> (useAi && parsed.Err?) || !Filled(data.title))
      && (r.Err? ==> r.error == 400)
      && (r.Ok? ==> r.value == Created(CreatedPattern(data), Filled(data.sections) || Filled(data.notes), useAi))
  {
    var data := req;
    var useAi := req.rawInput.Some? && req.rawInput.value != [];
    if useAi {
      if parsed.Err? {
        return Err(400);
      }
      data := Merge(req, parsed.value);
    }
    if data.title.None? || data.title.value == [] {
      return Err(400);
    }
    var notes := data.notes.GetOr([]);
    var intervals := data.intervals.GetOr([]);
    if notes != [] && !(data.intervals.Some? && data.intervals.value != []) {
      intervals := Melody.CalculateIntervals(notes);
    }
    var pattern := StoredPattern(Some(notes), Some(intervals), Some(data.tempo.GetOr(120)), Some(data.key.GetOr("C")));
    var sections := data.sections.GetOr([]);
    return Ok(Created(pattern, sections != [] || notes != [], useAi));
  }

  // ---------------------------------------------------------------------------
  // Editing a song
  // ---------------------------------------------------------------------------

  /**
   * The fields of an edit request the pattern update reads; `None` is a
   * field left out. A field present with a JSON null is not distinguished
   * from one left out.
   */
  datatype UpdateRequest = UpdateRequest(
    notes: Option<seq<int>>, intervals: Option<seq<int>>, tempo: Option<int>, key: Option<string>)

  /**
   * The rewritten pattern: given notes replace the stored ones and, when
   * there are at least two, their differences replace the intervals;
   * given intervals replace whatever intervals there were; a given tempo
   * or key replaces the stored one.
   */
  function UpdatedPattern(stored: Option<StoredPattern>, req: UpdateRequest): (p: StoredPattern)
    ensures p.notes == if req.notes.Some? then req.notes else (if stored.Some? then stored.value.notes else None)
    ensures req.intervals.Some? ==> p.intervals == req.intervals
    ensures req.intervals.None? && req.notes.Some? && |req.notes.value| > 1 ==> p.intervals == Some(Melody.Intervals(req.notes.value))
    ensures req.intervals.None? && !(req.notes.Some? && |req.notes.value| > 1) ==>
      p.intervals == if stored.Some? then stored.value.intervals else None
    ensures p.tempo == if req.tempo.Some? then req.tempo else (if stored.Some? then stored.value.tempo else None)
    ensures p.key == if req.key.Some? then req.key else (if stored.Some? then stored.value.key else None)
  {
    var base := stored.GetOr(StoredPattern(None, None, None, None));
    var withNotes :=
      if req.notes.Some? then
        base.(notes := req.notes,
              intervals := if |req.notes.value| > 1 then Some(Melody.Intervals(req.notes.value)) else base.intervals)
      else base;
    withNotes.(
      intervals := if req.intervals.Some? then req.intervals else withNotes.intervals,
      tempo := if req.tempo.Some? then req.tempo else withNotes.tempo,
      key := if req.key.Some? then req.key else withNotes.key)
  }

  /**
   * Once both are given, an edit's stored notes and intervals no longer
   * depend on what was stored; with notes alone (two or more) the
   * intervals match the notes.
   */
  lemma UpdateOverridesStored(a: Option<StoredPattern>, b: Option<StoredPattern>, req: UpdateRequest)
    requires req.notes.Some?
    ensures UpdatedPattern(a, req).notes == UpdatedPattern(b, req).notes
    ensures req.intervals.Some? || |req.notes.value| > 1 ==> UpdatedPattern(a, req).intervals == UpdatedPattern(b, req).intervals
    ensures req.intervals.None? && |req.notes.value| > 1 ==>
      |UpdatedPattern(a, req).intervals.value| == |req.notes.value| - 1
  {
    if req.intervals.None? && |req.notes.value| > 1 {
      Melody.IntervalsShape(req.notes.value);
    }
  }

  /** The song columns an edit touches that the model keeps. */
  class SongRecord {
    var tempo: int
    var key: string
    var melodyPattern: Option<StoredPattern>

    constructor (tempo: int, key: string, melodyPattern: Option<StoredPattern>)
      ensures this.tempo == tempo && this.key == key && this.melodyPattern == melodyPattern
    {
      this.tempo := tempo;
      this.key := key;
      this.melodyPattern := melodyPattern;
    }

    /**
     * `update_tutorial`: a given tempo or key overwrites the column; the
     * pattern is rewritten only when the edit gives notes or intervals, so
     * an edit of tempo or key alone leaves the pattern's copies stale.
     */
    method Update(req: UpdateRequest)
      modifies this
      ensures tempo == if req.tempo.Some? then req.tempo.value else old(tempo)
      ensures key == if req.key.Some? then req.key.value else old(key)
      ensures melodyPattern == if req.notes.Some? || req.intervals.Some? then Some(UpdatedPattern(old(melodyPattern), req))
                               else old(melodyPattern)
    {
      if req.tempo.Some? {
        tempo := req.tempo.value;
      }
      if req.key.Some? {
        key := req.key.value;
      }
      if req.notes.Some? || req.intervals.Some? {
        var pattern := melodyPattern.GetOr(StoredPattern(None, None, None, None));
        if req.notes.Some? {
          pattern := pattern.(notes := req.notes);
          var notes := req.notes.value;
          if notes != [] && |notes| > 1 {
            var intervals := Melody.CalculateIntervals(notes);
            pattern := pattern.(intervals := Some(intervals));
          }
        }
        if req.intervals.Some? {
          pattern := pattern.(intervals := req.intervals);
        }
        if req.tempo.Some? {
          pattern := pattern.(tempo := req.tempo);
        }
        if req.key.Some? {
          pattern := pattern.(key := req.key);
        }
        melodyPattern := Some(pattern);
      }
    }
  }

  // ---------------------------------------------------------------------------
  // Accounts
  // ---------------------------------------------------------------------------

  /** The balances an admin grant reports: before (empty for a new record) and after. */
  datatype GemGrant = GemGrant(oldGems: Option<int>, newGems: int)

  /**
   * `add_user_gems`: a missing amount counts as 0; a non-positive amount
   * is refused with 400 and the balance kept; otherwise the balance (an
   * empty one counting as 50) rises by exactly the amount.
   */
  method AddUserGems(g: Gamification.UserGamification, amount: Option<int>) returns (r: Result<GemGrant, int>)
    modifies g`gems
    ensures r.Err? <==> amount.GetOr(0) <= 0
    ensures r.Err? ==> r.error == 400 && g.gems == old(g.gems)
    ensures r.Ok? ==> g.gems == Some(old(g.gems).GetOr(Gamification.DEFAULT_GEMS) + amount.value)
                      && r.value == GemGrant(old(g.gems), g.gems.value)
                      && r.value.newGems > old(g.gems).GetOr(Gamification.DEFAULT_GEMS)
  {
    var n := amount.GetOr(0);
    if n <= 0 {
      return Err(400);
    }
    var oldGems := g.gems;
    g.AddGems(n);
    return Ok(GemGrant(oldGems, g.gems.value));
  }

  /**
   * `set_user_premium`: the flag defaults to granting and the length to
   * 30 days; a grant of more than zero days ends that many days from
   * `now`, a revocation clears the end, and a grant of zero or fewer days
   * keeps the old end.
   */
  method SetUserPremium(u: User.User, isPremium: Option<bool>, days: Option<int>, now: int)
    modifies u`isPremium, u`premiumUntil
    ensures u.isPremium == isPremium.GetOr(true)
    ensures u.isPremium && days.GetOr(30) > 0 ==> u.premiumUntil == Some(now + days.GetOr(30) * SECONDS_PER_DAY)
    ensures !u.isPremium ==> u.premiumUntil == None
    ensures u.isPremium && days.GetOr(30) <= 0 ==> u.premiumUntil == old(u.premiumUntil)
  {
    var grant := isPremium.GetOr(true);
    var d := days.GetOr(30);
    u.isPremium := grant;
    if grant && d > 0 {
      u.premiumUntil := Some(now + d * SECONDS_PER_DAY);
    } else if !grant {
      u.premiumUntil := None;
    }
  }

  /**
   * A grant of d > 0 days makes the account premium from now until the
   * end of the last day, and not after; a revocation ends premium at once.
   */
  lemma PremiumGrantWindow(u: User.User, d: int, now: int, t: int)
    requires d > 0 && u.isPremium && u.premiumUntil == Some(now + d * SECONDS_PER_DAY)
    ensures now <= t < now + d * SECONDS_PER_DAY ==> u.IsActivePremium(t)
    ensures t >= now + d * SECONDS_PER_DAY ==> !u.IsActivePremium(t)
  {
  }

  lemma PremiumRevoked(u: User.User, t: int)
    requires !u.isPremium && u.premiumUntil == None
    ensures !u.IsActivePremium(t)
  {
  }

  /**
   * `delete_user`: an unknown account is 404; an admin deleting their own
   * account is refused with 400; otherwise the account is removed and
   * every other account kept.
   */
  function DeleteUser(target: int, caller: int, accounts: set<int>): (r: Result<set<int>, int>)
    ensures target !in accounts ==> r == Err(404)
    ensures target in accounts && target == caller ==> r == Err(400)
    ensures r.Ok? <==> target in accounts && target != caller
    ensures r.Ok? ==> r.value == accounts - {target}
  {
    if target !in accounts then Err(404)
    else if target == caller then Err(400)
    else Ok(accounts - {target})
  }

  /** Whatever sequence of deletions an admin issues, their own account survives every one. */
  lemma {:induction false} CallerSurvivesDeletes(targets: seq<int>, caller: int, accounts: set<int>)
    requires caller in accounts
    ensures caller in Deletes(targets, caller, accounts)
    decreases |targets|
  {
    if targets != [] {
      var r := DeleteUser(targets[0], caller, accounts);
      CallerSurvivesDeletes(targets[1..], caller, if r.Ok? then r.value else accounts);
    }
  }

  /** The accounts left after an admin's deletions in order, refused ones changing nothing. */
  function Deletes(targets: seq<int>, caller: int, accounts: set<int>): set<int>
    decreases |targets|
  {
    if targets == [] then accounts
    else
      var r := DeleteUser(targets[0], caller, accounts);
      Deletes(targets[1..], caller, if r.Ok? then r.value else accounts)
  }
}
