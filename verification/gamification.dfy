/**
 * A user's gamification record: experience points and levels, the gem
 * wallet, the daily practice streak with its freezes, the daily goal and
 * the unlocked achievements; and the reward chests. Days are whole day
 * numbers and instants whole seconds, both supplied by the caller.
 */
module Gamification {
  import opened Wrappers

  /** Experience needed for levels 1 to 20. */
  const LEVEL_THRESHOLDS: seq<int> := [
    0, 100, 300, 600, 1000, 1500, 2200, 3000, 4000, 5500,
    7500, 10000, 13000, 17000, 22000, 28000, 35000, 43000, 52000, 62000]

  const MAX_LEVEL := 20
  /** The balance assumed when the gem column is empty. */
  const DEFAULT_GEMS := 50
  const GEMS_PER_LEVEL := 25
  const DAILY_GOAL_BONUS_XP := 20

  predicate Ascending(s: seq<int>)
  {
    forall i, j :: 0 <= i < j < |s| ==> s[i] < s[j]
  }

  lemma ThresholdsAscending()
    ensures |LEVEL_THRESHOLDS| == MAX_LEVEL && LEVEL_THRESHOLDS[0] == 0
    ensures Ascending(LEVEL_THRESHOLDS)
  {
  }

  /** How far the run of thresholds `xp` reaches, scanning from i and stopping at the first one missed. */
  function Reached(ts: seq<int>, xp: int, i: nat): (r: nat)
    requires i <= |ts|
    decreases |ts| - i
    ensures i <= r <= |ts|
  {
    if i < |ts| && xp >= ts[i] then Reached(ts, xp, i + 1) else i
  }

  /** Every threshold before the stopping point is reached, and the one at it is not. */
  lemma {:induction false} ReachedBracket(ts: seq<int>, xp: int, i: nat)
    requires i <= |ts|
    decreases |ts| - i
    ensures var r := Reached(ts, xp, i);
      && (forall k :: i <= k < r ==> xp >= ts[k])
      && (r < |ts| ==> xp < ts[r])
  {
    if i < |ts| && xp >= ts[i] {
      ReachedBracket(ts, xp, i + 1);
    }
  }

  /** The level loop's result for a threshold list: the thresholds reached, at least 1 and at most 20. */
  function LevelIn(ts: seq<int>, xp: int): (level: int)
    ensures 1 <= level <= MAX_LEVEL
  {
    var n := Reached(ts, xp, 0);
    var newLevel := if n == 0 then 1 else n;
    if newLevel < MAX_LEVEL then newLevel else MAX_LEVEL
  }

  /** For ascending thresholds, more experience never means a lower level. */
  lemma LevelInMonotone(ts: seq<int>, x: int, y: int)
    requires x <= y && Ascending(ts)
    ensures LevelIn(ts, x) <= LevelIn(ts, y)
  {
    ReachedBracket(ts, x, 0);
    ReachedBracket(ts, y, 0);
  }

  /**
   * The level an experience total earns, read off the threshold table one
   * comparison at a time: the first level whose successor's threshold the
   * total has not reached, and 20 beyond the last threshold.
   */
  function LevelFor(xp: int): (level: int)
    ensures 1 <= level <= MAX_LEVEL
  {
    if xp < 100 then 1 else if xp < 300 then 2 else if xp < 600 then 3 else if xp < 1000 then 4
    else if xp < 1500 then 5 else if xp < 2200 then 6 else if xp < 3000 then 7 else if xp < 4000 then 8
    else if xp < 5500 then 9 else if xp < 7500 then 10 else if xp < 10000 then 11 else if xp < 13000 then 12
    else if xp < 17000 then 13 else if xp < 22000 then 14 else if xp < 28000 then 15 else if xp < 35000 then 16
    else if xp < 43000 then 17 else if xp < 52000 then 18 else if xp < 62000 then 19 else 20
  }

  /** The scanning loop's level over the threshold table is the level the comparisons give. */
  lemma LevelScanAgrees(xp: int)
    ensures LevelIn(LEVEL_THRESHOLDS, xp) == LevelFor(xp)
  {
    ReachedBracket(LEVEL_THRESHOLDS, xp, 0);
    var r := Reached(LEVEL_THRESHOLDS, xp, 0);
    if r == 0 {
      assert xp < LEVEL_THRESHOLDS[0] == 0;
    } else {
      LevelBetween(xp, r);
    }
  }

  /** A total between the thresholds of level k and level k + 1 earns level k. */
  lemma LevelBetween(xp: int, k: int)
    requires 1 <= k <= MAX_LEVEL && LEVEL_THRESHOLDS[k - 1] <= xp
    requires k < MAX_LEVEL ==> xp < LEVEL_THRESHOLDS[k]
    ensures LevelFor(xp) == k
  {
    if k == 1 {
      assert LEVEL_THRESHOLDS[0] == 0 && LEVEL_THRESHOLDS[1] == 100;
    } else if k == 2 {
      assert LEVEL_THRESHOLDS[1] == 100 && LEVEL_THRESHOLDS[2] == 300;
    } else if k == 3 {
      assert LEVEL_THRESHOLDS[2] == 300 && LEVEL_THRESHOLDS[3] == 600;
    } else if k == 4 {
      assert LEVEL_THRESHOLDS[3] == 600 && LEVEL_THRESHOLDS[4] == 1000;
    } else if k == 5 {
      assert LEVEL_THRESHOLDS[4] == 1000 && LEVEL_THRESHOLDS[5] == 1500;
    } else if k == 6 {
      assert LEVEL_THRESHOLDS[5] == 1500 && LEVEL_THRESHOLDS[6] == 2200;
    } else if k == 7 {
      assert LEVEL_THRESHOLDS[6] == 2200 && LEVEL_THRESHOLDS[7] == 3000;
    } else if k == 8 {
      assert LEVEL_THRESHOLDS[7] == 3000 && LEVEL_THRESHOLDS[8] == 4000;
    } else if k == 9 {
      assert LEVEL_THRESHOLDS[8] == 4000 && LEVEL_THRESHOLDS[9] == 5500;
    } else if k == 10 {
      assert LEVEL_THRESHOLDS[9] == 5500 && LEVEL_THRESHOLDS[10] == 7500;
    } else if k == 11 {
      assert LEVEL_THRESHOLDS[10] == 7500 && LEVEL_THRESHOLDS[11] == 10000;
    } else if k == 12 {
      assert LEVEL_THRESHOLDS[11] == 10000 && LEVEL_THRESHOLDS[12] == 13000;
    } else if k == 13 {
      assert LEVEL_THRESHOLDS[12] == 13000 && LEVEL_THRESHOLDS[13] == 17000;
    } else if k == 14 {
      assert LEVEL_THRESHOLDS[13] == 17000 && LEVEL_THRESHOLDS[14] == 22000;
    } else if k == 15 {
      assert LEVEL_THRESHOLDS[14] == 22000 && LEVEL_THRESHOLDS[15] == 28000;
    } else if k == 16 {
      assert LEVEL_THRESHOLDS[15] == 28000 && LEVEL_THRESHOLDS[16] == 35000;
    } else if k == 17 {
      assert LEVEL_THRESHOLDS[16] == 35000 && LEVEL_THRESHOLDS[17] == 43000;
    } else if k == 18 {
      assert LEVEL_THRESHOLDS[17] == 43000 && LEVEL_THRESHOLDS[18] == 52000;
    } else if k == 19 {
      assert LEVEL_THRESHOLDS[18] == 52000 && LEVEL_THRESHOLDS[19] == 62000;
    } else {
      assert LEVEL_THRESHOLDS[19] == 62000;
    }
  }

  /** A total lies below the threshold of the level after its own, and a non-negative one at or above its own. */
  lemma LevelBracket(xp: int)
    ensures xp >= 0 ==> LEVEL_THRESHOLDS[LevelFor(xp) - 1] <= xp
    ensures LevelFor(xp) < MAX_LEVEL ==> xp < LEVEL_THRESHOLDS[LevelFor(xp)]
  {
    LevelScanAgrees(xp);
    ThresholdsAscending();
    ReachedBracket(LEVEL_THRESHOLDS, xp, 0);
  }

  /** More experience never means a lower level. */
  lemma LevelMonotone(x: int, y: int)
    requires x <= y
    ensures LevelFor(x) <= LevelFor(y)
  {
    ThresholdsAscending();
    LevelScanAgrees(x);
    LevelScanAgrees(y);
    LevelInMonotone(LEVEL_THRESHOLDS, x, y);
  }

  /** The gems paid when a streak ends a call at exactly 7, 14, 30, 60, 100 or 365 days. */
  function MilestoneGems(streak: int): (g: Option<int>)
    ensures g.Some? <==> streak in {7, 14, 30, 60, 100, 365}
    ensures g.Some? ==> g.value >= 50
  {
    if streak == 7 then Some(50)
    else if streak == 14 then Some(100)
    else if streak == 30 then Some(200)
    else if streak == 60 then Some(400)
    else if streak == 100 then Some(750)
    else if streak == 365 then Some(2000)
    else None
  }

  datatype AddXpResult = AddXpResult(xpAdded: int, totalXp: int, level: int, leveledUp: bool, oldLevel: int)
  datatype Milestone = Milestone(days: int, gems: int)
  datatype StreakResult = StreakResult(currentStreak: int, longestStreak: int, milestoneReward: Option<Milestone>)
  datatype DailyGoalResult = DailyGoalResult(todayMinutes: int, goalMinutes: int, goalReached: bool, bonusXp: int)

  /** The level loop of `add_xp`: walk the thresholds until the first one not reached, capped at 20. */
  method ComputeLevel(xp: int) returns (level: int)
    ensures level == LevelFor(xp)
  {
    var newLevel := 1;
    var i := 0;
    while i < |LEVEL_THRESHOLDS|
      invariant 0 <= i <= |LEVEL_THRESHOLDS|
      invariant Reached(LEVEL_THRESHOLDS, xp, 0) == Reached(LEVEL_THRESHOLDS, xp, i)
      invariant newLevel == if i == 0 then 1 else i
    {
      if xp >= LEVEL_THRESHOLDS[i] {
        newLevel := i + 1;
      } else {
        break;
      }
      i := i + 1;
    }
    level := if newLevel < MAX_LEVEL then newLevel else MAX_LEVEL;
    LevelScanAgrees(xp);
  }

  class UserGamification {
    const userId: int
    var totalXp: int
    var level: int
    var gems: Option<int>
    var currentStreak: int
    var longestStreak: int
    var lastPracticeDate: Option<int>
    var streakFreezes: int
    var dailyGoalMinutes: int
    var todayPracticeMinutes: int
    var lastGoalReset: Option<int>
    var totalLessonsCompleted: int
    var totalSongsLearned: int
    var perfectScores: int
    /** Ids of the unlocked achievements. */
    var achievements: set<string>

    /**
     * The stored level never runs ahead of the experience (the daily-goal
     * bonus adds experience without recomputing it), the longest streak is
     * at least the current one, and a practised record has a streak.
     */
    ghost predicate Valid()
      reads this
    {
      && 1 <= level <= LevelFor(totalXp)
      && 0 <= currentStreak <= longestStreak
      && (lastPracticeDate.Some? ==> currentStreak >= 1)
    }

    /** A new record with the column defaults and the given starting gems. */
    constructor (userId: int, gems: int)
      ensures Valid()
      ensures this.userId == userId && this.gems == Some(gems)
      ensures totalXp == 0 && level == 1 && currentStreak == 0 && longestStreak == 0
      ensures lastPracticeDate == None && streakFreezes == 0
      ensures dailyGoalMinutes == 15 && todayPracticeMinutes == 0 && lastGoalReset == None
      ensures totalLessonsCompleted == 0 && totalSongsLearned == 0 && perfectScores == 0
      ensures achievements == {}
    {
      this.userId := userId;
      totalXp := 0;
      level := 1;
      this.gems := Some(gems);
      currentStreak := 0;
      longestStreak := 0;
      lastPracticeDate := None;
      streakFreezes := 0;
      dailyGoalMinutes := 15;
      todayPracticeMinutes := 0;
      lastGoalReset := None;
      totalLessonsCompleted := 0;
      totalSongsLearned := 0;
      perfectScores := 0;
      achievements := {};
    }

    /**
     * Adds experience and recomputes the level from the new total; each
     * level gained pays 25 gems. A non-negative amount never lowers the level.
     */
    method AddXp(amount: int) returns (r: AddXpResult)
      requires Valid()
      modifies this`totalXp, this`level, this`gems
      ensures Valid()
      ensures totalXp == old(totalXp) + amount && level == LevelFor(totalXp)
      ensures amount >= 0 ==> level >= old(level)
      ensures r == AddXpResult(amount, totalXp, level, level > old(level), old(level))
      ensures gems == if level > old(level)
                      then Some(old(gems).GetOr(DEFAULT_GEMS) + GEMS_PER_LEVEL * (level - old(level)))
                      else old(gems)
    {
      var oldLevel := level;
      totalXp := totalXp + amount;
      level := ComputeLevel(totalXp);
      if amount >= 0 {
        LevelMonotone(old(totalXp), totalXp);
      }
      var leveledUp := level > oldLevel;
      if leveledUp {
        gems := Some(gems.GetOr(DEFAULT_GEMS) + GEMS_PER_LEVEL * (level - oldLevel));
      }
      r := AddXpResult(amount, totalXp, level, leveledUp, oldLevel);
    }

    /** Adds gems to the balance, an empty balance counting as 50. */
    method AddGems(amount: int)
      modifies this`gems
      ensures gems == Some(old(gems).GetOr(DEFAULT_GEMS) + amount)
    {
      gems := Some(gems.GetOr(DEFAULT_GEMS) + amount);
    }

    /**
     * Spends gems when the balance (an empty one counting as 50) covers
     * the amount; otherwise the balance stays as it was.
     */
    method SpendGems(amount: int) returns (ok: bool)
      modifies this`gems
      ensures ok <==> old(gems).GetOr(DEFAULT_GEMS) >= amount
      ensures gems == Some(old(gems).GetOr(DEFAULT_GEMS) - (if ok then amount else 0))
    {
      if gems.None? {
        gems := Some(DEFAULT_GEMS);
      }
      if gems.value >= amount {
        gems := Some(gems.value - amount);
        return true;
      }
      return false;
    }

    /**
     * Counts a practice on day `today`: the first practice starts a streak
     * of 1, a repeat the same day changes nothing, the next day extends
     * it, and after a gap of g days g - 1 freezes bridge the gap if there
     * are enough, otherwise the streak restarts at 1. Milestone gems are
     * paid whenever the streak ends the call on a milestone; the balance
     * must then be present (an empty one cannot be added to).
     */
    method UpdateStreak(today: int) returns (r: StreakResult)
      requires Valid() && gems.Some?
      modifies this`currentStreak, this`longestStreak, this`lastPracticeDate, this`streakFreezes, this`gems
      ensures Valid()
      ensures lastPracticeDate == Some(today) && currentStreak >= 1
      ensures old(lastPracticeDate).None? ==> currentStreak == 1 && streakFreezes == old(streakFreezes)
      ensures old(lastPracticeDate) == Some(today) ==>
        currentStreak == old(currentStreak) && streakFreezes == old(streakFreezes)
      ensures old(lastPracticeDate) == Some(today - 1) ==>
        currentStreak == old(currentStreak) + 1 && streakFreezes == old(streakFreezes)
      ensures old(lastPracticeDate).Some? && old(lastPracticeDate).value != today && old(lastPracticeDate).value != today - 1 ==>
        var missed := today - old(lastPracticeDate).value - 1;
        if missed <= old(streakFreezes)
        then currentStreak == old(currentStreak) + 1 && streakFreezes == old(streakFreezes) - missed
        else currentStreak == 1 && streakFreezes == old(streakFreezes)
      ensures old(streakFreezes) >= 0 && (old(lastPracticeDate).None? || old(lastPracticeDate).value <= today) ==>
        streakFreezes >= 0
      ensures longestStreak == if currentStreak > old(longestStreak) then currentStreak else old(longestStreak)
      ensures r.milestoneReward == (match MilestoneGems(currentStreak)
                                    case Some(g) => Some(Milestone(currentStreak, g))
                                    case None => None)
      ensures gems == Some(old(gems).value + MilestoneGems(currentStreak).GetOr(0))
      ensures r.currentStreak == currentStreak && r.longestStreak == longestStreak
    {
      match lastPracticeDate {
        case None =>
          currentStreak := 1;
        case Some(last) =>
          if last == today {
          } else if last == today - 1 {
            currentStreak := currentStreak + 1;
          } else {
            var daysMissed := today - last - 1;
            if daysMissed <= streakFreezes {
              streakFreezes := streakFreezes - daysMissed;
              currentStreak := currentStreak + 1;
            } else {
              currentStreak := 1;
            }
          }
      }
      lastPracticeDate := Some(today);
      if currentStreak > longestStreak {
        longestStreak := currentStreak;
      }
      var reward := CheckStreakMilestone();
      r := StreakResult(currentStreak, longestStreak, reward);
    }

    /** Pays the milestone gems for the current streak, if it is a milestone. */
    method CheckStreakMilestone() returns (reward: Option<Milestone>)
      requires gems.Some?
      modifies this`gems
      ensures reward == (match MilestoneGems(currentStreak)
                         case Some(g) => Some(Milestone(currentStreak, g))
                         case None => None)
      ensures gems == Some(old(gems).value + MilestoneGems(currentStreak).GetOr(0))
    {
      match MilestoneGems(currentStreak) {
        case Some(g) =>
          gems := Some(gems.value + g);
          reward := Some(Milestone(currentStreak, g));
        case None =>
          reward := None;
      }
    }

    /**
     * Adds practised minutes to today's total (starting from 0 on a new
     * day) and pays a 20 XP bonus on the call that reaches the goal; the
     * bonus does not recompute the level.
     */
    method UpdateDailyGoal(minutes: int, today: int) returns (r: DailyGoalResult)
      requires Valid()
      modifies this`todayPracticeMinutes, this`lastGoalReset, this`totalXp
      ensures Valid()
      ensures var before := if old(lastGoalReset) == Some(today) then old(todayPracticeMinutes) else 0;
        && todayPracticeMinutes == before + minutes
        && r.goalReached == (todayPracticeMinutes >= dailyGoalMinutes)
        && (r.bonusXp == DAILY_GOAL_BONUS_XP <==> before < dailyGoalMinutes <= todayPracticeMinutes)
        && (r.bonusXp == 0 <==> !(before < dailyGoalMinutes <= todayPracticeMinutes))
      ensures lastGoalReset == Some(today) && totalXp == old(totalXp) + r.bonusXp
      ensures r.todayMinutes == todayPracticeMinutes && r.goalMinutes == dailyGoalMinutes
    {
      if lastGoalReset != Some(today) {
        todayPracticeMinutes := 0;
        lastGoalReset := Some(today);
      }
      todayPracticeMinutes := todayPracticeMinutes + minutes;
      var goalReached := todayPracticeMinutes >= dailyGoalMinutes;
      var bonusXp := 0;
      if goalReached && todayPracticeMinutes - minutes < dailyGoalMinutes {
        bonusXp := DAILY_GOAL_BONUS_XP;
        AddBonusXp(bonusXp);
      }
      r := DailyGoalResult(todayPracticeMinutes, dailyGoalMinutes, goalReached, bonusXp);
    }

    /** Adds experience without recomputing the level. */
    method AddBonusXp(amount: nat)
      requires Valid()
      modifies this`totalXp
      ensures Valid() && totalXp == old(totalXp) + amount
    {
      LevelMonotone(totalXp, totalXp + amount);
      totalXp := totalXp + amount;
    }

    /** Experience still missing for the next level; 0 at the top level. */
    function XpForNextLevel(): (need: int)
      reads this
      requires Valid()
      ensures level >= MAX_LEVEL ==> need == 0
      ensures level == LevelFor(totalXp) && level < MAX_LEVEL ==> need > 0
      ensures level < MAX_LEVEL ==> need == LEVEL_THRESHOLDS[level] - totalXp
    {
      LevelBracket(totalXp);

      if level >= |LEVEL_THRESHOLDS| then 0 else LEVEL_THRESHOLDS[level] - totalXp
    }
  }

  // ---------------------------------------------------------------------
  // Reward chests
  // ---------------------------------------------------------------------

  datatype ChestContents = ChestContents(xp: int, gems: int)

  /** The ranges chest contents are drawn from: bronze, silver and gold; other types hold nothing. */
  predicate ContentsInRange(chestType: string, c: ChestContents)
  {
    if chestType == "bronze" then 10 <= c.xp <= 30 && 2 <= c.gems <= 8
    else if chestType == "silver" then 30 <= c.xp <= 75 && 8 <= c.gems <= 20
    else if chestType == "gold" then 75 <= c.xp <= 150 && 20 <= c.gems <= 50
    else c.xp == 0 && c.gems == 0
  }

  class RewardChest {
    const userId: int
    const chestType: string
    var openedAt: Option<int>
    var contents: Option<ChestContents>

    /** An opened chest has its contents stored, and stored contents are in the chest type's range. */
    ghost predicate Valid()
      reads this
    {
      (openedAt.Some? ==> contents.Some?) && (contents.Some? ==> ContentsInRange(chestType, contents.value))
    }

    constructor (userId: int, chestType: string)
      ensures Valid()
      ensures this.userId == userId && this.chestType == chestType && openedAt == None && contents == None
    {
      this.userId := userId;
      this.chestType := chestType;
      openedAt := None;
      contents := None;
    }

    /**
     * Opens the chest at instant `now`: a closed chest stores and returns
     * `drawn`, the random contents for its type; an opened one returns
     * what it already holds and changes nothing.
     */
    method Open(now: int, drawn: ChestContents) returns (c: ChestContents)
      requires Valid() && ContentsInRange(chestType, drawn)
      modifies this`openedAt, this`contents
      ensures Valid() && openedAt.Some? && contents == Some(c)
      ensures ContentsInRange(chestType, c)
      ensures old(openedAt).Some? ==> c == old(contents).value && openedAt == old(openedAt)
      ensures old(openedAt).None? ==> c == drawn && openedAt == Some(now)
    {
      if openedAt.Some? {
        return contents.value;
      }
      contents := Some(drawn);
      openedAt := Some(now);
      c := drawn;
    }
  }
}
