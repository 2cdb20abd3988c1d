/**
 * The decision rules of the gamification endpoints: amount and goal
 * guards, the chest tier a score earns, achievement unlocking, and the
 * handlers that apply them to a user's record. The achievement catalogue
 * and the held achievements stand for the database tables.
 */
module GamificationApi {
  import opened Wrappers
  import opened Gamification

  /** The rewards an achievement definition pays. */
  datatype AchievementDef = AchievementDef(xpReward: int, gemReward: int)

  /** Amounts of experience or gems must be positive. */
  predicate AmountAccepted(amount: int)
  {
    amount > 0
  }

  /** A daily goal is between 5 and 120 minutes. */
  predicate GoalAccepted(minutes: int)
  {
    5 <= minutes <= 120
  }

  /** The chest a performance score earns: gold from 95, silver from 80, bronze below. */
  function ChestTier(score: real): (tier: string)
    ensures tier in {"bronze", "silver", "gold"}
    ensures tier == "gold" <==> score >= 95.0
    ensures tier == "silver" <==> 80.0 <= score < 95.0
    ensures tier == "bronze" <==> score < 80.0
  {
    if score >= 95.0 then "gold" else if score >= 80.0 then "silver" else "bronze"
  }

  function TierRank(tier: string): nat
  {
    if tier == "gold" then 2 else if tier == "silver" then 1 else 0
  }

  /** A better score never earns a lesser chest. */
  lemma ChestTierMonotone(x: real, y: real)
    requires x <= y
    ensures TierRank(ChestTier(x)) <= TierRank(ChestTier(y))
  {
  }

  // ---------------------------------------------------------------------
  // Achievements
  // ---------------------------------------------------------------------

  /** "Unlock `id` once `value` reaches `threshold`." */
  datatype Rule = Rule(value: int, threshold: int, id: string)

  predicate DistinctIds(rules: seq<Rule>)
  {
    forall i, j :: 0 <= i < j < |rules| ==> rules[i].id != rules[j].id
  }

  predicate Due(r: Rule, held: set<string>, catalog: map<string, AchievementDef>)
  {
    r.value >= r.threshold && r.id !in held && r.id in catalog
  }

  /** The ids the rules unlock, in rule order: reached, not yet held, and defined in the catalogue. */
  function Newly(rules: seq<Rule>, held: set<string>, catalog: map<string, AchievementDef>): (ids: seq<string>)
    ensures |ids| <= |rules|
    ensures forall x :: x in ids ==> x in catalog && x !in held
  {
    if rules == [] then []
    else
      var last := rules[|rules| - 1];
      Newly(rules[..|rules| - 1], held, catalog) + (if Due(last, held, catalog) then [last.id] else [])
  }

  /** An id is unlocked exactly when some rule for it is due. */
  lemma {:induction false} NewlyMembers(rules: seq<Rule>, held: set<string>, catalog: map<string, AchievementDef>, x: string)
    ensures x in Newly(rules, held, catalog) <==> exists k :: 0 <= k < |rules| && rules[k].id == x && Due(rules[k], held, catalog)
  {
    if rules != [] {
      var init := rules[..|rules| - 1];
      NewlyMembers(init, held, catalog, x);
      if exists k :: 0 <= k < |init| && init[k].id == x && Due(init[k], held, catalog) {
        var k :| 0 <= k < |init| && init[k].id == x && Due(init[k], held, catalog);
        assert rules[k] == init[k];
      }
      if exists k :: 0 <= k < |rules| && rules[k].id == x && Due(rules[k], held, catalog) {
        var k :| 0 <= k < |rules| && rules[k].id == x && Due(rules[k], held, catalog);
        if k < |init| {
          assert init[k] == rules[k];
        }
      }
    }
  }

  /** Total experience paid for a list of catalogue ids. */
  function XpOf(ids: seq<string>, catalog: map<string, AchievementDef>): int
    requires forall x :: x in ids ==> x in catalog
  {
    if ids == [] then 0 else XpOf(ids[..|ids| - 1], catalog) + catalog[ids[|ids| - 1]].xpReward
  }

  /** Total gems paid as rewards for a list of catalogue ids. */
  function GemsOf(ids: seq<string>, catalog: map<string, AchievementDef>): int
    requires forall x :: x in ids ==> x in catalog
  {
    if ids == [] then 0 else GemsOf(ids[..|ids| - 1], catalog) + catalog[ids[|ids| - 1]].gemReward
  }

  /**
   * The level after unlocking `ids` in order, starting from experience
   * `xp0` at level `level0`: every unlock recomputes the level from the
   * new total, so none leaves it as it was.
   */
  function LevelAfter(xp0: int, level0: int, ids: seq<string>, catalog: map<string, AchievementDef>): int
    requires forall x :: x in ids ==> x in catalog
  {
    if ids == [] then level0 else LevelFor(xp0 + XpOf(ids, catalog))
  }

  /**
   * The gems unlocking `ids` in order pays, starting from experience `xp0`
   * at level `level0`: each unlock pays 25 gems per level its experience
   * gains, then its own gem reward.
   */
  function GemsPaid(xp0: int, level0: int, ids: seq<string>, catalog: map<string, AchievementDef>): int
    requires forall x :: x in ids ==> x in catalog
  {
    if ids == [] then 0
    else
      var init := ids[..|ids| - 1];
      var before := LevelAfter(xp0, level0, init, catalog);
      var after := LevelFor(xp0 + XpOf(ids, catalog));
      GemsPaid(xp0, level0, init, catalog) + (if after > before then GEMS_PER_LEVEL * (after - before) else 0)
      + catalog[ids[|ids| - 1]].gemReward
  }

  /** The balance after unlocking `ids`: untouched when nothing is unlocked, otherwise present, an empty one counting as 50. */
  function GemsAfter(gems0: Option<int>, xp0: int, level0: int, ids: seq<string>, catalog: map<string, AchievementDef>): Option<int>
    requires forall x :: x in ids ==> x in catalog
  {
    if ids == [] then gems0 else Some(gems0.GetOr(DEFAULT_GEMS) + GemsPaid(xp0, level0, ids, catalog))
  }

  /** With non-negative experience rewards, the experience of a list of unlocks is non-negative. */
  lemma {:induction false} XpOfNonNegative(ids: seq<string>, catalog: map<string, AchievementDef>)
    requires forall x :: x in ids ==> x in catalog && catalog[x].xpReward >= 0
    ensures XpOf(ids, catalog) >= 0
  {
    if ids != [] {
      XpOfNonNegative(ids[..|ids| - 1], catalog);
    }
  }

  /**
   * With non-negative experience rewards and a level not ahead of the
   * experience, unlocks never lower the level, and the gems they pay are
   * 25 per level gained overall plus their gem rewards.
   */
  lemma {:induction false} GemsPaidForLevels(xp0: int, level0: int, ids: seq<string>, catalog: map<string, AchievementDef>)
    requires forall x :: x in ids ==> x in catalog && catalog[x].xpReward >= 0
    requires level0 <= LevelFor(xp0)
    ensures level0 <= LevelAfter(xp0, level0, ids, catalog) <= LevelFor(xp0 + XpOf(ids, catalog))
    ensures GemsPaid(xp0, level0, ids, catalog)
      == GEMS_PER_LEVEL * (LevelAfter(xp0, level0, ids, catalog) - level0) + GemsOf(ids, catalog)
  {
    if ids != [] {
      var init := ids[..|ids| - 1];
      GemsPaidLast(xp0, level0, ids, catalog);
      GemsPaidForLevels(xp0, level0, init, catalog);
      XpOfNonNegative(init, catalog);
      var before := LevelAfter(xp0, level0, init, catalog);
      LevelChain(level0, before, xp0 + XpOf(init, catalog), xp0 + XpOf(ids, catalog));
      LevelGains(level0, before, LevelFor(xp0 + XpOf(ids, catalog)));
    }
  }

  /** A level at most that of `x` is at most that of any larger total. */
  lemma LevelChain(level0: int, before: int, x: int, y: int)
    requires level0 <= before <= LevelFor(x) && x <= y
    ensures level0 <= before <= LevelFor(y)
  {
    LevelMonotone(x, y);
  }

  /** Paying 25 gems per level for two successive gains is paying for the whole gain. */
  lemma LevelGains(a: int, b: int, c: int)
    requires a <= b <= c
    ensures GEMS_PER_LEVEL * (b - a) + (if c > b then GEMS_PER_LEVEL * (c - b) else 0) == GEMS_PER_LEVEL * (c - a)
  {
  }

  /** The last unlock of a list, taken apart: its experience, level and payment on top of the rest. */
  lemma GemsPaidLast(xp0: int, level0: int, ids: seq<string>, catalog: map<string, AchievementDef>)
    requires ids != [] && forall x :: x in ids ==> x in catalog && catalog[x].xpReward >= 0
    ensures var init := ids[..|ids| - 1];
      var last := catalog[ids[|ids| - 1]];
      var before := LevelAfter(xp0, level0, init, catalog);
      var after := LevelFor(xp0 + XpOf(ids, catalog));
      && (forall x :: x in init ==> x in catalog && catalog[x].xpReward >= 0)
      && last.xpReward >= 0
      && XpOf(ids, catalog) == XpOf(init, catalog) + last.xpReward
      && LevelAfter(xp0, level0, ids, catalog) == after
      && GemsPaid(xp0, level0, ids, catalog)
         == GemsPaid(xp0, level0, init, catalog) + (if after > before then GEMS_PER_LEVEL * (after - before) else 0) + last.gemReward
      && GemsOf(ids, catalog) == GemsOf(init, catalog) + last.gemReward
  {
    var init := ids[..|ids| - 1];
    assert forall x :: x in init ==> x in ids;
  }

  /**
   * `_unlock_achievement`: an id already held or missing from the
   * catalogue is refused with nothing changed; otherwise it is recorded
   * and its experience and gems are paid.
   */
  method UnlockAchievement(g: UserGamification, catalog: map<string, AchievementDef>, id: string) returns (ok: bool)
    requires g.Valid()
    modifies g`achievements, g`totalXp, g`level, g`gems
    ensures g.Valid()
    ensures ok <==> id !in old(g.achievements) && id in catalog
    ensures !ok ==> g.achievements == old(g.achievements) && g.totalXp == old(g.totalXp)
                    && g.level == old(g.level) && g.gems == old(g.gems)
    ensures ok ==> g.achievements == old(g.achievements) + {id}
                   && g.totalXp == old(g.totalXp) + catalog[id].xpReward
                   && g.level == LevelFor(g.totalXp)
                   && g.gems == Some(old(g.gems).GetOr(DEFAULT_GEMS)
                                     + (if g.level > old(g.level) then GEMS_PER_LEVEL * (g.level - old(g.level)) else 0)
                                     + catalog[id].gemReward)
  {
    if id in g.achievements {
      return false;
    }
    if id !in catalog {
      return false;
    }
    g.achievements := g.achievements + {id};
    var achievement := catalog[id];
    var _ := g.AddXp(achievement.xpReward);
    g.AddGems(achievement.gemReward);
    return true;
  }

  /** The ids a prefix of the rules unlocks, extended by one rule. */
  lemma NewlyStep(rules: seq<Rule>, k: nat, held: set<string>, catalog: map<string, AchievementDef>)
    requires k < |rules|
    ensures Newly(rules[..k + 1], held, catalog)
      == Newly(rules[..k], held, catalog) + (if Due(rules[k], held, catalog) then [rules[k].id] else [])
  {
    assert rules[..k + 1][..k] == rules[..k];
  }

  /** With distinct ids, no rule's id is among those the rules before it unlocked. */
  lemma NotYetUnlocked(rules: seq<Rule>, k: nat, held: set<string>, catalog: map<string, AchievementDef>)
    requires k < |rules| && DistinctIds(rules)
    ensures rules[k].id !in Newly(rules[..k], held, catalog)
  {
    NewlyMembers(rules[..k], held, catalog, rules[k].id);
  }

  /**
   * A record's experience, level and balance are those of starting from
   * `xp0`, `level0` and `gems0` and unlocking `ids` in order.
   */
  ghost predicate Paid(xp: int, level: int, gems: Option<int>, xp0: int, level0: int, gems0: Option<int>,
                       ids: seq<string>, catalog: map<string, AchievementDef>)
    requires forall x :: x in ids ==> x in catalog
  {
    && xp == xp0 + XpOf(ids, catalog)
    && level == LevelAfter(xp0, level0, ids, catalog)
    && gems == GemsAfter(gems0, xp0, level0, ids, catalog)
  }

  /** One more unlock, paid as `_unlock_achievement` pays it, extends the list the record has been paid for. */
  lemma UnlockStep(xp: int, level: int, gems: Option<int>, xp0: int, level0: int, gems0: Option<int>,
                   ids: seq<string>, id: string, catalog: map<string, AchievementDef>)
    requires forall x :: x in ids ==> x in catalog
    requires id in catalog && Paid(xp, level, gems, xp0, level0, gems0, ids, catalog)
    ensures var xp' := xp + catalog[id].xpReward;
      var level' := LevelFor(xp');
      Paid(xp', level',
           Some(gems.GetOr(DEFAULT_GEMS) + (if level' > level then GEMS_PER_LEVEL * (level' - level) else 0) + catalog[id].gemReward),
           xp0, level0, gems0, ids + [id], catalog)
  {
    var ids' := ids + [id];
    assert ids'[..|ids|] == ids && ids'[|ids'| - 1] == id;
    var xp' := xp + catalog[id].xpReward;
    assert XpOf(ids', catalog) == XpOf(ids, catalog) + catalog[id].xpReward;
    assert LevelAfter(xp0, level0, ids', catalog) == LevelFor(xp');
    var gain := if LevelFor(xp') > level then GEMS_PER_LEVEL * (LevelFor(xp') - level) else 0;
    assert GemsPaid(xp0, level0, ids', catalog) == GemsPaid(xp0, level0, ids, catalog) + gain + catalog[id].gemReward;
    assert gems.GetOr(DEFAULT_GEMS) == gems0.GetOr(DEFAULT_GEMS) + GemsPaid(xp0, level0, ids, catalog);
  }

  /** One rule of a table: once its value reaches the threshold, the achievement is unlocked if it can be. */
  method UnlockRule(g: UserGamification, catalog: map<string, AchievementDef>, r: Rule) returns (ok: bool)
    requires g.Valid()
    modifies g`achievements, g`totalXp, g`level, g`gems
    ensures g.Valid()
    ensures ok <==> Due(r, old(g.achievements), catalog)
    ensures !ok ==> g.achievements == old(g.achievements) && g.totalXp == old(g.totalXp)
                    && g.level == old(g.level) && g.gems == old(g.gems)
    ensures ok ==> g.achievements == old(g.achievements) + {r.id}
                   && g.totalXp == old(g.totalXp) + catalog[r.id].xpReward
                   && g.level == LevelFor(g.totalXp)
                   && g.gems == Some(old(g.gems).GetOr(DEFAULT_GEMS)
                                     + (if g.level > old(g.level) then GEMS_PER_LEVEL * (g.level - old(g.level)) else 0)
                                     + catalog[r.id].gemReward)
  {
    ok := false;
    if r.value >= r.threshold {
      ok := UnlockAchievement(g, catalog, r.id);
    }
  }

  /** After the first k rules: the ids unlocked are those the rules due so far name, and the held set has grown by them. */
  ghost predicate UnlockRecorded(rules: seq<Rule>, k: nat, held: set<string>, catalog: map<string, AchievementDef>,
                                 unlocked: seq<string>, achievements: set<string>)
  {
    && k <= |rules|
    && unlocked == Newly(rules[..k], held, catalog)
    && achievements == held + (set x | x in unlocked)
  }

  /** ... and the record has been paid for them. */
  ghost predicate UnlockProgress(rules: seq<Rule>, k: nat, held: set<string>, catalog: map<string, AchievementDef>,
                                 xp0: int, level0: int, gems0: Option<int>, unlocked: seq<string>,
                                 achievements: set<string>, xp: int, level: int, gems: Option<int>)
  {
    && UnlockRecorded(rules, k, held, catalog, unlocked, achievements)
    && Paid(xp, level, gems, xp0, level0, gems0, unlocked, catalog)
  }

  /** Rule k is unlocked exactly when it is due against the original held set; either way the bookkeeping moves on to k + 1. */
  lemma RecordStep(rules: seq<Rule>, k: nat, held: set<string>, catalog: map<string, AchievementDef>,
                   unlocked: seq<string>, achievements: set<string>, ok: bool, achievements': set<string>)
    requires k < |rules| && DistinctIds(rules)
    requires UnlockRecorded(rules, k, held, catalog, unlocked, achievements)
    requires ok <==> Due(rules[k], achievements, catalog)
    requires !ok ==> achievements' == achievements
    requires ok ==> achievements' == achievements + {rules[k].id}
    ensures ok ==> rules[k].id in catalog
    ensures UnlockRecorded(rules, k + 1, held, catalog, unlocked + (if ok then [rules[k].id] else []), achievements')
  {
    NewlyStep(rules, k, held, catalog);
    NotYetUnlocked(rules, k, held, catalog);
    if !ok {
      assert unlocked + [] == unlocked;
    }
  }

  /** The payment for an unlocked rule keeps `Paid`; a rule not unlocked changes nothing. */
  lemma PayStep(xp: int, level: int, gems: Option<int>, xp0: int, level0: int, gems0: Option<int>,
                ids: seq<string>, id: string, catalog: map<string, AchievementDef>,
                ok: bool, xp': int, level': int, gems': Option<int>)
    requires forall x :: x in ids ==> x in catalog
    requires Paid(xp, level, gems, xp0, level0, gems0, ids, catalog)
    requires !ok ==> xp' == xp && level' == level && gems' == gems
    requires ok ==> && id in catalog
                    && xp' == xp + catalog[id].xpReward
                    && level' == LevelFor(xp')
                    && gems' == Some(gems.GetOr(DEFAULT_GEMS)
                                     + (if level' > level then GEMS_PER_LEVEL * (level' - level) else 0)
                                     + catalog[id].gemReward)
    ensures Paid(xp', level', gems', xp0, level0, gems0, ids + (if ok then [id] else []), catalog)
  {
    if ok {
      UnlockStep(xp, level, gems, xp0, level0, gems0, ids, id, catalog);
    } else {
      assert ids + [] == ids;
    }
  }

  /** Rule k, unlocked or not as `UnlockRule` decides, carries the progress over the first k rules to k + 1. */
  lemma UnlockProgressStep(rules: seq<Rule>, k: nat, held: set<string>, catalog: map<string, AchievementDef>,
                           xp0: int, level0: int, gems0: Option<int>, unlocked: seq<string>,
                           achievements: set<string>, xp: int, level: int, gems: Option<int>,
                           ok: bool, achievements': set<string>, xp': int, level': int, gems': Option<int>)
    requires k < |rules| && DistinctIds(rules)
    requires UnlockProgress(rules, k, held, catalog, xp0, level0, gems0, unlocked, achievements, xp, level, gems)
    requires ok <==> Due(rules[k], achievements, catalog)
    requires !ok ==> achievements' == achievements && xp' == xp && level' == level && gems' == gems
    requires ok ==> && achievements' == achievements + {rules[k].id}
                    && xp' == xp + catalog[rules[k].id].xpReward
                    && level' == LevelFor(xp')
                    && gems' == Some(gems.GetOr(DEFAULT_GEMS)
                                     + (if level' > level then GEMS_PER_LEVEL * (level' - level) else 0)
                                     + catalog[rules[k].id].gemReward)
    ensures UnlockProgress(rules, k + 1, held, catalog, xp0, level0, gems0,
                           unlocked + (if ok then [rules[k].id] else []), achievements', xp', level', gems')
  {
    RecordStep(rules, k, held, catalog, unlocked, achievements, ok, achievements');
    PayStep(xp, level, gems, xp0, level0, gems0, unlocked, rules[k].id, catalog, ok, xp', level', gems');
  }

  /** Applies a table of rules in order, unlocking each one that is due. */
  method UnlockEach(g: UserGamification, catalog: map<string, AchievementDef>, rules: seq<Rule>) returns (unlocked: seq<string>)
    requires g.Valid() && DistinctIds(rules)
    modifies g`achievements, g`totalXp, g`level, g`gems
    ensures g.Valid()
    ensures unlocked == Newly(rules, old(g.achievements), catalog)
    ensures g.achievements == old(g.achievements) + set x | x in unlocked
    ensures g.totalXp == old(g.totalXp) + XpOf(unlocked, catalog)
    ensures g.level == LevelAfter(old(g.totalXp), old(g.level), unlocked, catalog)
    ensures g.gems == GemsAfter(old(g.gems), old(g.totalXp), old(g.level), unlocked, catalog)
  {
    unlocked := [];
    ghost var held, xp0, level0, gems0 := g.achievements, g.totalXp, g.level, g.gems;
    for k := 0 to |rules|
      invariant g.Valid()
      invariant UnlockProgress(rules, k, held, catalog, xp0, level0, gems0, unlocked, g.achievements, g.totalXp, g.level, g.gems)
    {
      ghost var achievements, xp, level, gems := g.achievements, g.totalXp, g.level, g.gems;
      var ok := UnlockRule(g, catalog, rules[k]);
      UnlockProgressStep(rules, k, held, catalog, xp0, level0, gems0, unlocked, achievements, xp, level, gems,
                         ok, g.achievements, g.totalXp, g.level, g.gems);
      if ok {
        unlocked := unlocked + [rules[k].id];
      } else {
        assert unlocked + [] == unlocked;
      }
    }
    assert rules[..|rules|] == rules;
  }

  function StreakRules(streak: int): seq<Rule>
  {
    [Rule(streak, 7, "streak_7"), Rule(streak, 30, "streak_30"), Rule(streak, 100, "streak_100")]
  }

  function LevelRules(level: int): seq<Rule>
  {
    [Rule(level, 5, "level_5"), Rule(level, 10, "level_10")]
  }

  function ProgressRules(songs: int, lessons: int, perfect: int): seq<Rule>
  {
    [Rule(songs, 1, "first_song"), Rule(songs, 5, "songs_5"), Rule(lessons, 1, "first_lesson"),
     Rule(perfect, 1, "perfect_score"), Rule(perfect, 10, "perfect_10")]
  }

  /**
   * The streak achievements granted are exactly the thresholds 7, 30 and
   * 100 the streak has reached that are defined and not yet held.
   */
  lemma StreakAchievementsExactly(streak: int, held: set<string>, catalog: map<string, AchievementDef>)
    ensures forall x :: x in Newly(StreakRules(streak), held, catalog) <==>
      (|| (x == "streak_7" && streak >= 7)
       || (x == "streak_30" && streak >= 30)
       || (x == "streak_100" && streak >= 100)) && x !in held && x in catalog
  {
    var rules := StreakRules(streak);
    forall x
      ensures x in Newly(rules, held, catalog) <==>
        (|| (x == "streak_7" && streak >= 7)
         || (x == "streak_30" && streak >= 30)
         || (x == "streak_100" && streak >= 100)) && x !in held && x in catalog
    {
      NewlyMembers(rules, held, catalog, x);
      assert rules[0].id == "streak_7" && rules[1].id == "streak_30" && rules[2].id == "streak_100";
    }
  }

  /** The level achievements granted are exactly levels 5 and 10 when reached, defined and not yet held. */
  lemma LevelAchievementsExactly(level: int, held: set<string>, catalog: map<string, AchievementDef>)
    ensures forall x :: x in Newly(LevelRules(level), held, catalog) <==>
      ((x == "level_5" && level >= 5) || (x == "level_10" && level >= 10)) && x !in held && x in catalog
  {
    var rules := LevelRules(level);
    forall x
      ensures x in Newly(rules, held, catalog) <==>
        ((x == "level_5" && level >= 5) || (x == "level_10" && level >= 10)) && x !in held && x in catalog
    {
      NewlyMembers(rules, held, catalog, x);
      assert rules[0].id == "level_5" && rules[1].id == "level_10";
    }
  }

  /** `_check_streak_achievements`, judged on the streak at the start of the call. */
  method CheckStreakAchievements(g: UserGamification, catalog: map<string, AchievementDef>) returns (unlocked: seq<string>)
    requires g.Valid()
    modifies g`achievements, g`totalXp, g`level, g`gems
    ensures g.Valid()
    ensures unlocked == Newly(StreakRules(old(g.currentStreak)), old(g.achievements), catalog)
    ensures g.achievements == old(g.achievements) + set x | x in unlocked
    ensures g.totalXp == old(g.totalXp) + XpOf(unlocked, catalog)
    ensures g.level == LevelAfter(old(g.totalXp), old(g.level), unlocked, catalog)
    ensures g.gems == GemsAfter(old(g.gems), old(g.totalXp), old(g.level), unlocked, catalog)
  {
    unlocked := UnlockEach(g, catalog, StreakRules(g.currentStreak));
  }

  /** `_check_level_achievements`, judged on the level at the start of the call. */
  method CheckLevelAchievements(g: UserGamification, catalog: map<string, AchievementDef>) returns (unlocked: seq<string>)
    requires g.Valid()
    modifies g`achievements, g`totalXp, g`level, g`gems
    ensures g.Valid()
    ensures unlocked == Newly(LevelRules(old(g.level)), old(g.achievements), catalog)
    ensures g.achievements == old(g.achievements) + set x | x in unlocked
    ensures g.totalXp == old(g.totalXp) + XpOf(unlocked, catalog)
    ensures g.level == LevelAfter(old(g.totalXp), old(g.level), unlocked, catalog)
    ensures g.gems == GemsAfter(old(g.gems), old(g.totalXp), old(g.level), unlocked, catalog)
  {
    unlocked := UnlockEach(g, catalog, LevelRules(g.level));
  }

  /** `_check_progress_achievements`: songs learned, lessons completed and perfect scores. */
  method CheckProgressAchievements(g: UserGamification, catalog: map<string, AchievementDef>) returns (unlocked: seq<string>)
    requires g.Valid()
    modifies g`achievements, g`totalXp, g`level, g`gems
    ensures g.Valid()
    ensures unlocked == Newly(ProgressRules(g.totalSongsLearned, g.totalLessonsCompleted, g.perfectScores), old(g.achievements), catalog)
    ensures g.achievements == old(g.achievements) + set x | x in unlocked
    ensures g.totalXp == old(g.totalXp) + XpOf(unlocked, catalog)
    ensures g.level == LevelAfter(old(g.totalXp), old(g.level), unlocked, catalog)
    ensures g.gems == GemsAfter(old(g.gems), old(g.totalXp), old(g.level), unlocked, catalog)
  {
    unlocked := UnlockEach(g, catalog, ProgressRules(g.totalSongsLearned, g.totalLessonsCompleted, g.perfectScores));
  }

  // ---------------------------------------------------------------------
  // Handlers (on an existing record)
  // ---------------------------------------------------------------------

  /** add-xp: refuses a non-positive amount untouched; otherwise adds it and checks the level achievements. */
  method HandleAddXp(g: UserGamification, catalog: map<string, AchievementDef>, amount: int) returns (r: Result<AddXpResult, string>)
    requires g.Valid()
    modifies g`achievements, g`totalXp, g`level, g`gems
    ensures g.Valid()
    ensures r.Err? <==> !AmountAccepted(amount)
    ensures r.Err? ==> (r.error == "Invalid XP amount" && g.totalXp == old(g.totalXp)
                        && g.level == old(g.level) && g.gems == old(g.gems) && g.achievements == old(g.achievements))
    ensures r.Ok? ==> (r.value.xpAdded == amount && r.value.totalXp == old(g.totalXp) + amount
                       && r.value.level == LevelFor(old(g.totalXp) + amount) && r.value.level >= old(g.level))
    ensures r.Ok? ==>
      var xp1 := old(g.totalXp) + amount;
      var level1 := LevelFor(xp1);
      var gems1 := if level1 > old(g.level)
                   then Some(old(g.gems).GetOr(DEFAULT_GEMS) + GEMS_PER_LEVEL * (level1 - old(g.level)))
                   else old(g.gems);
      var unlocked := Newly(LevelRules(level1), old(g.achievements), catalog);
      && g.achievements == old(g.achievements) + (set x | x in unlocked)
      && g.totalXp == xp1 + XpOf(unlocked, catalog)
      && g.level == LevelAfter(xp1, level1, unlocked, catalog)
      && g.gems == GemsAfter(gems1, xp1, level1, unlocked, catalog)
  {
    if amount <= 0 {
      return Err("Invalid XP amount");
    }
    var result := g.AddXp(amount);
    var _ := CheckLevelAchievements(g, catalog);
    return Ok(result);
  }

  /**
   * gems/spend: refuses a non-positive amount; a balance that does not
   * cover it is refused and left as it was; a bought streak freeze adds
   * exactly one freeze. Success carries the remaining balance.
   */
  method HandleSpendGems(g: UserGamification, amount: int, itemType: Option<string>) returns (r: Result<int, string>)
    modifies g`gems, g`streakFreezes
    ensures !AmountAccepted(amount) ==> r == Err("Invalid amount") && g.gems == old(g.gems)
    ensures AmountAccepted(amount) && old(g.gems).GetOr(DEFAULT_GEMS) < amount ==>
      r == Err("Not enough gems") && g.gems == Some(old(g.gems).GetOr(DEFAULT_GEMS))
    ensures r.Err? ==> g.streakFreezes == old(g.streakFreezes)
    ensures r.Ok? <==> AmountAccepted(amount) && old(g.gems).GetOr(DEFAULT_GEMS) >= amount
    ensures r.Ok? ==> (g.gems == Some(old(g.gems).GetOr(DEFAULT_GEMS) - amount) && r.value == g.gems.value
                       && g.streakFreezes == old(g.streakFreezes) + (if itemType == Some("streak_freeze") then 1 else 0))
  {
    if amount <= 0 {
      return Err("Invalid amount");
    }
    var ok := g.SpendGems(amount);
    if !ok {
      return Err("Not enough gems");
    }
    if itemType == Some("streak_freeze") {
      g.streakFreezes := g.streakFreezes + 1;
    }
    return Ok(g.gems.value);
  }

  /** gems/add: refuses a non-positive amount untouched; otherwise adds exactly it. */
  method HandleAddGems(g: UserGamification, amount: int) returns (r: Result<int, string>)
    modifies g`gems
    ensures r.Err? <==> !AmountAccepted(amount)
    ensures r.Err? ==> r.error == "Invalid amount" && g.gems == old(g.gems)
    ensures r.Ok? ==> g.gems == Some(old(g.gems).GetOr(DEFAULT_GEMS) + amount) && r.value == g.gems.value
  {
    if amount <= 0 {
      return Err("Invalid amount");
    }
    g.AddGems(amount);
    return Ok(g.gems.value);
  }

  /** daily-goal/set: only 5 to 120 minutes are accepted. */
  method HandleSetDailyGoal(g: UserGamification, minutes: int) returns (r: Result<int, string>)
    modifies g`dailyGoalMinutes
    ensures r.Ok? <==> GoalAccepted(minutes)
    ensures r.Ok? ==> r.value == minutes && g.dailyGoalMinutes == minutes
    ensures r.Err? ==> r.error == "Goal must be between 5 and 120 minutes" && g.dailyGoalMinutes == old(g.dailyGoalMinutes)
  {
    if !(5 <= minutes <= 120) {
      return Err("Goal must be between 5 and 120 minutes");
    }
    g.dailyGoalMinutes := minutes;
    return Ok(minutes);
  }

  /** chests/earn: a new closed chest of the tier the score earns. */
  method HandleEarnChest(userId: int, score: real) returns (chest: RewardChest)
    ensures fresh(chest) && chest.Valid()
    ensures chest.userId == userId && chest.chestType == ChestTier(score) && chest.openedAt == None
  {
    chest := new RewardChest(userId, ChestTier(score));
  }

  /**
   * chests/open: an opened chest is refused untouched; otherwise it is
   * opened with `drawn` as its contents, which are paid to the user's
   * record when there is one.
   */
  method HandleOpenChest(chest: RewardChest, g: UserGamification?, now: int, drawn: ChestContents)
    returns (r: Result<ChestContents, string>)
    requires chest.Valid() && ContentsInRange(chest.chestType, drawn)
    requires g != null ==> g.Valid()
    modifies chest`openedAt, chest`contents
    modifies (if g == null then {} else {g})`totalXp, (if g == null then {} else {g})`level
    modifies (if g == null then {} else {g})`gems
    ensures chest.Valid()
    ensures old(chest.openedAt).Some? ==>
      r == Err("Chest already opened") && chest.contents == old(chest.contents) && chest.openedAt == old(chest.openedAt)
    ensures old(chest.openedAt).None? ==> r == Ok(drawn) && chest.contents == Some(drawn) && chest.openedAt == Some(now)
    ensures g != null && r.Ok? ==>
      && g.Valid() && g.totalXp == old(g.totalXp) + drawn.xp && g.level == LevelFor(g.totalXp)
      && g.gems == Some(old(g.gems).GetOr(DEFAULT_GEMS)
                        + (if g.level > old(g.level) then GEMS_PER_LEVEL * (g.level - old(g.level)) else 0)
                        + drawn.gems)
    ensures g != null && r.Err? ==> g.totalXp == old(g.totalXp) && g.level == old(g.level) && g.gems == old(g.gems)
  {
    if chest.openedAt.Some? {
      return Err("Chest already opened");
    }
    var contents := chest.Open(now, drawn);
    if g != null {
      var _ := g.AddXp(contents.xp);
      g.AddGems(contents.gems);
    }
    return Ok(contents);
  }
}
