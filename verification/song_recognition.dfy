/**
 * The server-side melody matcher. Played notes become intervals, which
 * makes the comparison independent of the key; every catalogue pattern is
 * scored by three fuzzy scorers (a sliding window, a subsequence search
 * and a comparison with the song's opening), optionally blended with a
 * rhythm match; patterns scoring at least 0.6 become matches, which are
 * sorted by confidence and cut to the best five. Scores are exact reals.
 */
module SongRecognition {
  import opened Wrappers
  import opened Numeric
  import Melody

  const MIN_NOTES_FOR_MATCH := 4
  const SIMILARITY_THRESHOLD := 0.6
  const RHYTHM_WEIGHT := 0.3
  /** Patterns with fewer intervals than this are never scored. */
  const MIN_SONG_INTERVALS := 3
  const MAX_MATCHES := 5
  const CONFIDENCE_CAP := 99

  function AbsInt(x: int): nat
  {
    if x < 0 then -x else x
  }

  function MinInt(a: int, b: int): int
  {
    if a <= b then a else b
  }

  function MaxReal(a: real, b: real): real
  {
    if a >= b then a else b
  }

  // ---------------------------------------------------------------------
  // Per-position credit of the scorers
  // ---------------------------------------------------------------------

  /** Sliding-window credit: 1 for an exact interval, 0.7 one semitone off, 0.35 two off. */
  function SlidingCredit(a: int, b: int): (c: real)
    ensures 0.0 <= c <= 1.0
    ensures c == 1.0 <==> a == b
  {
    var d := AbsInt(a - b);
    if d == 0 then 1.0 else if d <= 1 then 0.7 else if d <= 2 then 0.35 else 0.0
  }

  /** Subsequence and opening credit: 1 exact, 0.8 one semitone off, 0.5 two off. */
  function AlignCredit(a: int, b: int): (c: real)
    ensures 0.0 <= c <= 1.0
    ensures c == 1.0 <==> a == b
  {
    var d := AbsInt(a - b);
    if d == 0 then 1.0 else if d <= 1 then 0.8 else if d <= 2 then 0.5 else 0.0
  }

  /** Position of a rhythm symbol in S, M, L, X; any other symbol counts as S. */
  function RhythmOrder(r: string): nat
  {
    if r == "S" then 0 else if r == "M" then 1 else if r == "L" then 2 else if r == "X" then 3 else 0
  }

  /** Two rhythm symbols in neighbouring categories. */
  predicate RhythmClose(a: string, b: string)
  {
    AbsInt(RhythmOrder(a) - RhythmOrder(b)) == 1
  }

  /** Rhythm credit: 1 for the same symbol, 0.7 for a neighbouring category. */
  function RhythmCredit(a: string, b: string): (c: real)
    ensures 0.0 <= c <= 1.0
    ensures c == 1.0 <==> a == b
  {
    if a == b then 1.0 else if RhythmClose(a, b) then 0.7 else 0.0
  }

  /** The rhythm category of a time interval in milliseconds. */
  function Bucket(ms: int): (r: string)
    ensures r in {"S", "M", "L", "X"}
    ensures RhythmOrder(r) == (if ms >= 200 then 1 else 0) + (if ms >= 500 then 1 else 0) + (if ms >= 1000 then 1 else 0)
  {
    if ms < 200 then "S" else if ms < 500 then "M" else if ms < 1000 then "L" else "X"
  }

  /** A longer interval never falls in a shorter category. */
  lemma BucketMonotone(x: int, y: int)
    requires x <= y
    ensures RhythmOrder(Bucket(x)) <= RhythmOrder(Bucket(y))
  {
  }

  /** Two categories produced by bucketing are close exactly when they are neighbours in S, M, L, X. */
  lemma BucketsClose(x: int, y: int)
    ensures RhythmClose(Bucket(x), Bucket(y)) <==>
      (RhythmOrder(Bucket(x)) + 1 == RhythmOrder(Bucket(y)) || RhythmOrder(Bucket(y)) + 1 == RhythmOrder(Bucket(x)))
  {
  }

  /** `_normalize_rhythm`: one category per time interval, in order. */
  method NormalizeRhythm(timeIntervals: seq<int>) returns (rhythm: seq<string>)
    ensures |rhythm| == |timeIntervals|
    ensures forall i :: 0 <= i < |timeIntervals| ==> rhythm[i] == Bucket(timeIntervals[i])
  {
    rhythm := [];
    for i := 0 to |timeIntervals|
      invariant |rhythm| == i
      invariant forall k :: 0 <= k < i ==> rhythm[k] == Bucket(timeIntervals[k])
    {
      rhythm := rhythm + [Bucket(timeIntervals[i])];
    }
  }

  /** The specification of `NormalizeRhythm`, for use in other specifications. */
  function Rhythm(timeIntervals: seq<int>): (r: seq<string>)
    ensures |r| == |timeIntervals|
    ensures forall i :: 0 <= i < |timeIntervals| ==> r[i] == Bucket(timeIntervals[i])
  {
    seq(|timeIntervals|, i requires 0 <= i < |timeIntervals| => Bucket(timeIntervals[i]))
  }

  // ---------------------------------------------------------------------
  // Window sums and the scorers' specifications
  // ---------------------------------------------------------------------

  ghost predicate UnitCredit<T(!new)>(credit: (T, T) -> real)
  {
    forall a, b :: 0.0 <= credit(a, b) <= 1.0
  }

  /** Sum of the credits of p[0..n) against s[offset..offset + n). */
  function WindowSum<T>(p: seq<T>, s: seq<T>, offset: nat, n: nat, credit: (T, T) -> real): real
    requires n <= |p| && offset + n <= |s|
  {
    if n == 0 then 0.0 else WindowSum(p, s, offset, n - 1, credit) + credit(p[n - 1], s[offset + n - 1])
  }

  lemma {:induction false} WindowSumBounds<T(!new)>(p: seq<T>, s: seq<T>, offset: nat, n: nat, credit: (T, T) -> real)
    requires n <= |p| && offset + n <= |s| && UnitCredit(credit)
    ensures 0.0 <= WindowSum(p, s, offset, n, credit) <= n as real
  {
    if n > 0 {
      WindowSumBounds(p, s, offset, n - 1, credit);
      assert 0.0 <= credit(p[n - 1], s[offset + n - 1]) <= 1.0;
    }
  }

  /** A window earns full credit exactly when every position does. */
  lemma {:induction false} WindowSumFull<T(!new)>(p: seq<T>, s: seq<T>, offset: nat, n: nat, credit: (T, T) -> real)
    requires n <= |p| && offset + n <= |s| && UnitCredit(credit)
    ensures WindowSum(p, s, offset, n, credit) == n as real <==>
      forall i :: 0 <= i < n ==> credit(p[i], s[offset + i]) == 1.0
  {
    if n > 0 {
      WindowSumFull(p, s, offset, n - 1, credit);
      WindowSumBounds(p, s, offset, n - 1, credit);
      assert 0.0 <= credit(p[n - 1], s[offset + n - 1]) <= 1.0;
      if WindowSum(p, s, offset, n, credit) == n as real {
        assert credit(p[n - 1], s[offset + n - 1]) == 1.0;
      }
    }
  }

  /** Number of positions compared when p is laid over s from `offset`. */
  function Comparisons(plen: nat, slen: nat, offset: nat): nat
    requires offset <= slen
  {
    MinInt(plen, slen - offset)
  }

  /** Offsets the sliding scorers try: all that fit, and at least the first. */
  function OffsetCount(plen: nat, slen: nat): (k: nat)
    ensures k >= 1
    ensures slen > 0 && plen > 0 ==> k <= slen
  {
    if slen - plen + 1 >= 1 then slen - plen + 1 else 1
  }

  /** Mean credit of the positions compared at one offset. */
  function AverageAt<T>(p: seq<T>, s: seq<T>, offset: nat, credit: (T, T) -> real): real
    requires p != [] && offset < |s|
  {
    var c := Comparisons(|p|, |s|, offset);
    WindowSum(p, s, offset, c, credit) / c as real
  }

  /** The best mean over the first k offsets (0 when there are none). */
  function BestAverage<T>(p: seq<T>, s: seq<T>, k: nat, credit: (T, T) -> real): (best: real)
    requires p != [] && k <= |s|
    ensures best >= 0.0
  {
    if k == 0 then 0.0 else MaxReal(BestAverage(p, s, k - 1, credit), AverageAt(p, s, k - 1, credit))
  }

  lemma AverageBounds<T(!new)>(p: seq<T>, s: seq<T>, offset: nat, credit: (T, T) -> real)
    requires p != [] && offset < |s| && UnitCredit(credit)
    ensures 0.0 <= AverageAt(p, s, offset, credit) <= 1.0
  {
    var c := Comparisons(|p|, |s|, offset);
    WindowSumBounds(p, s, offset, c, credit);
    DivideBounds(WindowSum(p, s, offset, c, credit), c);
  }

  lemma DivideBounds(x: real, c: nat)
    requires c > 0 && 0.0 <= x <= c as real
    ensures 0.0 <= x / c as real <= 1.0
  {
  }

  /** The best mean is at most 1 and at least the mean at every offset tried. */
  lemma {:induction false} BestAverageBounds<T(!new)>(p: seq<T>, s: seq<T>, k: nat, credit: (T, T) -> real)
    requires p != [] && k <= |s| && UnitCredit(credit)
    ensures BestAverage(p, s, k, credit) <= 1.0
    ensures forall o :: 0 <= o < k ==> AverageAt(p, s, o, credit) <= BestAverage(p, s, k, credit)
  {
    if k > 0 {
      BestAverageBounds(p, s, k - 1, credit);
      AverageBounds(p, s, k - 1, credit);
    }
  }

  lemma {:induction false} BestSubsequenceBounds(played: seq<int>, song: seq<int>, k: nat)
    requires played != [] && k <= |song|
    ensures BestSubsequence(played, song, k) <= 1.0
    ensures forall o :: 0 <= o < k ==> SubsequenceAt(played, song, o) <= BestSubsequence(played, song, k)
  {
    if k > 0 {
      BestSubsequenceBounds(played, song, k - 1);
      var o := k - 1;
      var n := Comparisons(|played|, |song|, o);
      AlignCreditUnit();
      WindowSumBounds(played, song, o, n, AlignCredit);
      DivideBounds(WindowSum(played, song, o, n, AlignCredit), |played|);
    }
  }

  /** `_sliding_window_match`: the best mean credit over the offsets tried; 0 for empty input. */
  function SlidingScore(played: seq<int>, song: seq<int>): real
  {
    if played == [] || song == [] then 0.0
    else BestAverage(played, song, OffsetCount(|played|, |song|), SlidingCredit)
  }

  /** `_rhythm_match`: the sliding scorer over rhythm symbols with the rhythm credit. */
  function RhythmScore(played: seq<string>, song: seq<string>): real
  {
    if played == [] || song == [] then 0.0
    else BestAverage(played, song, OffsetCount(|played|, |song|), RhythmCredit)
  }

  /** Credit of the played intervals laid over the song from `start`, divided by the played length. */
  function SubsequenceAt(played: seq<int>, song: seq<int>, start: nat): real
    requires played != [] && start < |song|
  {
    WindowSum(played, song, start, Comparisons(|played|, |song|, start), AlignCredit) / |played| as real
  }

  function BestSubsequence(played: seq<int>, song: seq<int>, k: nat): (best: real)
    requires played != [] && k <= |song|
    ensures best >= 0.0
  {
    if k == 0 then 0.0 else MaxReal(BestSubsequence(played, song, k - 1), SubsequenceAt(played, song, k - 1))
  }

  /** `_subsequence_match`: the best start position in the song; 0 for empty input. */
  function SubsequenceScore(played: seq<int>, song: seq<int>): real
  {
    if played == [] || song == [] then 0.0 else BestSubsequence(played, song, |song|)
  }

  /** `_start_match`: mean credit of the played intervals against the song's opening; 0 for empty input. */
  function StartScore(played: seq<int>, song: seq<int>): real
  {
    if played == [] || song == [] then 0.0
    else
      var c := MinInt(|played|, |song|);
      WindowSum(played, song, 0, c, AlignCredit) / c as real
  }

  lemma SlidingCreditUnit()
    ensures UnitCredit(SlidingCredit)
  {
  }

  lemma AlignCreditUnit()
    ensures UnitCredit(AlignCredit)
  {
  }

  lemma RhythmCreditUnit()
    ensures UnitCredit(RhythmCredit)
  {
  }

  /** Every scorer gives a value between 0 and 1. */
  lemma ScoresInUnitInterval(played: seq<int>, song: seq<int>, playedRhythm: seq<string>, songRhythm: seq<string>)
    ensures 0.0 <= SlidingScore(played, song) <= 1.0
    ensures 0.0 <= SubsequenceScore(played, song) <= 1.0
    ensures 0.0 <= StartScore(played, song) <= 1.0
    ensures 0.0 <= RhythmScore(playedRhythm, songRhythm) <= 1.0
  {
    SlidingCreditUnit();
    AlignCreditUnit();
    RhythmCreditUnit();
    if played != [] && song != [] {
      BestAverageBounds(played, song, OffsetCount(|played|, |song|), SlidingCredit);
      var c := MinInt(|played|, |song|);
      WindowSumBounds(played, song, 0, c, AlignCredit);
      DivideBounds(WindowSum(played, song, 0, c, AlignCredit), c);
      BestSubsequenceBounds(played, song, |song|);
    }
    if playedRhythm != [] && songRhythm != [] {
      BestAverageBounds(playedRhythm, songRhythm, OffsetCount(|playedRhythm|, |songRhythm|), RhythmCredit);
    }
  }

  /** The opening scorer gives 1 exactly when the played intervals agree with the song's opening. */
  lemma StartScoreOne(played: seq<int>, song: seq<int>)
    requires played != [] && song != []
    ensures var c := MinInt(|played|, |song|);
      StartScore(played, song) == 1.0 <==> played[..c] == song[..c]
  {
    var c := MinInt(|played|, |song|);
    AlignCreditUnit();
    WindowSumFull(played, song, 0, c, AlignCredit);
    AlignedCredits(played, song, 0, c);
    assert song[0..c] == song[..c];
    DivideOne(WindowSum(played, song, 0, c, AlignCredit), c as real);
  }

  /** Every compared interval earns full credit exactly when the window agrees with the played ones. */
  lemma AlignedCredits(played: seq<int>, song: seq<int>, start: nat, n: nat)
    requires n <= |played| && start + n <= |song|
    ensures (forall i :: 0 <= i < n ==> AlignCredit(played[i], song[start + i]) == 1.0)
      <==> played[..n] == song[start..start + n]
  {
    if forall i :: 0 <= i < n ==> AlignCredit(played[i], song[start + i]) == 1.0 {
      forall i | 0 <= i < n
        ensures played[..n][i] == song[start..start + n][i]
      {
        assert AlignCredit(played[i], song[start + i]) == 1.0;
      }
    }
    if played[..n] == song[start..start + n] {
      forall i | 0 <= i < n
        ensures AlignCredit(played[i], song[start + i]) == 1.0
      {
        assert played[..n][i] == song[start..start + n][i];
      }
    }
  }

  /** A quotient by a positive d is 1 exactly when the dividend is d. */
  lemma DivideOne(w: real, d: real)
    requires d > 0.0
    ensures w / d == 1.0 <==> w == d
  {
    assert (w / d) * d == w;
  }

  /** When the played intervals agree with the song's opening, the sliding scorer gives 1 as well. */
  lemma SlidingScoreOfOpening(played: seq<int>, song: seq<int>)
    requires played != [] && song != []
    requires var c := MinInt(|played|, |song|); played[..c] == song[..c]
    ensures SlidingScore(played, song) == 1.0
  {
    var c := MinInt(|played|, |song|);
    SlidingCreditUnit();
    assert Comparisons(|played|, |song|, 0) == c;
    forall i | 0 <= i < c ensures SlidingCredit(played[i], song[0 + i]) == 1.0 {
      assert played[..c][i] == song[..c][i];
    }
    WindowSumFull(played, song, 0, c, SlidingCredit);
    assert AverageAt(played, song, 0, SlidingCredit) == 1.0;
    BestAverageBounds(played, song, OffsetCount(|played|, |song|), SlidingCredit);
  }

  /** Played intervals occurring unchanged anywhere in the song give a subsequence score of 1. */
  lemma SubsequenceScoreOfOccurrence(played: seq<int>, song: seq<int>, start: nat)
    requires played != [] && start + |played| <= |song| && song[start..start + |played|] == played
    ensures SubsequenceScore(played, song) == 1.0
  {
    AlignCreditUnit();
    var n := |played|;
    assert Comparisons(n, |song|, start) == n;
    assert played[..n] == played;
    AlignedCredits(played, song, start, n);
    WindowSumFull(played, song, start, n, AlignCredit);
    DivideOne(WindowSum(played, song, start, n, AlignCredit), n as real);
    assert SubsequenceAt(played, song, start) == 1.0;
    BestSubsequenceBounds(played, song, |song|);
  }

  // ---------------------------------------------------------------------
  // The scorers as the service computes them
  // ---------------------------------------------------------------------

  /** The credit loop shared by the scorers: the sum over one window. */
  method SumWindow<T>(p: seq<T>, s: seq<T>, offset: nat, n: nat, credit: (T, T) -> real) returns (sum: real)
    requires n <= |p| && offset + n <= |s|
    ensures sum == WindowSum(p, s, offset, n, credit)
  {
    sum := 0.0;
    for i := 0 to n
      invariant sum == WindowSum(p, s, offset, i, credit)
    {
      sum := sum + credit(p[i], s[offset + i]);
    }
  }

  method SlidingWindowMatch(seq1: seq<int>, seq2: seq<int>) returns (bestScore: real)
    ensures bestScore == SlidingScore(seq1, seq2)
    ensures 0.0 <= bestScore <= 1.0
  {
    ScoresInUnitInterval(seq1, seq2, [], []);
    if seq1 == [] || seq2 == [] {
      return 0.0;
    }
    bestScore := 0.0;
    var offsets := OffsetCount(|seq1|, |seq2|);
    for offset := 0 to offsets
      invariant bestScore == BestAverage(seq1, seq2, offset, SlidingCredit)
    {
      var comparisons := MinInt(|seq1|, |seq2| - offset);
      var matches := SumWindow(seq1, seq2, offset, comparisons, SlidingCredit);
      bestScore := MaxReal(bestScore, matches / comparisons as real);
    }
  }

  method RhythmMatch(played: seq<string>, song: seq<string>) returns (bestScore: real)
    ensures bestScore == RhythmScore(played, song)
    ensures 0.0 <= bestScore <= 1.0
  {
    ScoresInUnitInterval([], [], played, song);
    if played == [] || song == [] {
      return 0.0;
    }
    bestScore := 0.0;
    var offsets := OffsetCount(|played|, |song|);
    for offset := 0 to offsets
      invariant bestScore == BestAverage(played, song, offset, RhythmCredit)
    {
      var comparisons := MinInt(|played|, |song| - offset);
      var matches := SumWindow(played, song, offset, comparisons, RhythmCredit);
      bestScore := MaxReal(bestScore, matches / comparisons as real);
    }
  }

  method SubsequenceMatch(played: seq<int>, song: seq<int>) returns (bestScore: real)
    ensures bestScore == SubsequenceScore(played, song)
    ensures 0.0 <= bestScore <= 1.0
  {
    ScoresInUnitInterval(played, song, [], []);
    if played == [] || song == [] {
      return 0.0;
    }
    bestScore := 0.0;
    for start := 0 to |song|
      invariant bestScore == BestSubsequence(played, song, start)
    {
      var matches := SumWindow(played, song, start, MinInt(|played|, |song| - start), AlignCredit);
      bestScore := MaxReal(bestScore, matches / |played| as real);
    }
  }

  method StartMatch(played: seq<int>, song: seq<int>) returns (score: real)
    ensures score == StartScore(played, song)
    ensures 0.0 <= score <= 1.0
  {
    ScoresInUnitInterval(played, song, [], []);
    if played == [] || song == [] {
      return 0.0;
    }
    var comparisons := MinInt(|played|, |song|);
    var matches := SumWindow(played, song, 0, comparisons, AlignCredit);
    score := matches / comparisons as real;
  }

  // ---------------------------------------------------------------------
  // Levenshtein similarity (defined by the service but called nowhere)
  // ---------------------------------------------------------------------

  /** Edit distance between a[..i] and b[..j] where intervals at most a semitone apart count as equal. */
  function FuzzyDistance(a: seq<int>, b: seq<int>, i: nat, j: nat): nat
    requires i <= |a| && j <= |b|
    decreases i + j
  {
    if i == 0 then j
    else if j == 0 then i
    else if AbsInt(a[i - 1] - b[j - 1]) <= 1 then FuzzyDistance(a, b, i - 1, j - 1)
    else 1 + Min3(FuzzyDistance(a, b, i - 1, j), FuzzyDistance(a, b, i, j - 1), FuzzyDistance(a, b, i - 1, j - 1))
  }

  function Min3(x: nat, y: nat, z: nat): nat
  {
    if x <= y && x <= z then x else if y <= z then y else z
  }

  /** The distance never exceeds the longer prefix, and is at least the difference of lengths. */
  lemma {:induction false} FuzzyDistanceBounds(a: seq<int>, b: seq<int>, i: nat, j: nat)
    requires i <= |a| && j <= |b|
    ensures FuzzyDistance(a, b, i, j) <= if i >= j then i else j
    ensures FuzzyDistance(a, b, i, j) >= AbsInt(i - j)
    decreases i + j
  {
    if i > 0 && j > 0 {
      FuzzyDistanceBounds(a, b, i - 1, j - 1);
      FuzzyDistanceBounds(a, b, i - 1, j);
      FuzzyDistanceBounds(a, b, i, j - 1);
    }
  }

  /** A sequence is at distance 0 from itself. */
  lemma {:induction false} FuzzyDistanceSelf(a: seq<int>, i: nat)
    requires i <= |a|
    ensures FuzzyDistance(a, a, i, i) == 0
  {
    if i > 0 {
      FuzzyDistanceSelf(a, i - 1);
    }
  }

  function LevenshteinScore(a: seq<int>, b: seq<int>): real
  {
    if a == [] || b == [] then 0.0
    else
      var maxLen := if |a| >= |b| then |a| else |b|;
      1.0 - FuzzyDistance(a, b, |a|, |b|) as real / maxLen as real
  }

  /** The similarity lies in [0, 1] and is 1 for a non-empty sequence compared with itself. */
  lemma LevenshteinScoreBounds(a: seq<int>, b: seq<int>)
    ensures 0.0 <= LevenshteinScore(a, b) <= 1.0
    ensures a != [] ==> LevenshteinScore(a, a) == 1.0
  {
    if a != [] && b != [] {
      FuzzyDistanceBounds(a, b, |a|, |b|);
      var maxLen := if |a| >= |b| then |a| else |b|;
      DivideBounds(FuzzyDistance(a, b, |a|, |b|) as real, maxLen);
    }
    if a != [] {
      FuzzyDistanceSelf(a, |a|);
    }
  }

  /** Rows 0..rows of the table hold the fuzzy distances. */
  ghost predicate Filled(dp: array2<nat>, a: seq<int>, b: seq<int>, rows: nat)
    reads dp
    requires dp.Length0 == |a| + 1 && dp.Length1 == |b| + 1 && rows <= |a| + 1
  {
    forall ii, jj :: 0 <= ii < rows && 0 <= jj <= |b| ==> dp[ii, jj] == FuzzyDistance(a, b, ii, jj)
  }

  /** One row of the table, from the row above it and its own first cell. */
  method FillRow(dp: array2<nat>, a: seq<int>, b: seq<int>, i: nat)
    requires dp.Length0 == |a| + 1 && dp.Length1 == |b| + 1 && 1 <= i <= |a|
    requires Filled(dp, a, b, i) && dp[i, 0] == i
    modifies dp
    ensures Filled(dp, a, b, i + 1)
    ensures forall ii :: i < ii <= |a| ==> dp[ii, 0] == old(dp[ii, 0])
  {
    for j := 1 to |b| + 1
      invariant Filled(dp, a, b, i)
      invariant forall jj :: 0 <= jj < j ==> dp[i, jj] == FuzzyDistance(a, b, i, jj)
      invariant forall ii :: i < ii <= |a| ==> dp[ii, 0] == old(dp[ii, 0])
    {
      var v: nat;
      if AbsInt(a[i - 1] - b[j - 1]) <= 1 {
        v := dp[i - 1, j - 1];
      } else {
        v := 1 + Min3(dp[i - 1, j], dp[i, j - 1], dp[i - 1, j - 1]);
      }
      assert v == FuzzyDistance(a, b, i, j);
      SetCell(dp, a, b, i, j, v);
    }
  }

  /** Writing a cell of row i keeps the rows above it and the first column below it. */
  method SetCell(dp: array2<nat>, a: seq<int>, b: seq<int>, i: nat, j: nat, v: nat)
    requires dp.Length0 == |a| + 1 && dp.Length1 == |b| + 1 && 1 <= i <= |a| && 1 <= j <= |b|
    requires Filled(dp, a, b, i)
    modifies dp
    ensures Filled(dp, a, b, i)
    ensures dp[i, j] == v
    ensures forall jj :: 0 <= jj < dp.Length1 && jj != j ==> dp[i, jj] == old(dp[i, jj])
    ensures forall ii :: i < ii <= |a| ==> dp[ii, 0] == old(dp[ii, 0])
  {
    dp[i, j] := v;
  }

  /** `_levenshtein_similarity`, filling the distance table row by row. */
  method LevenshteinSimilarity(seq1: seq<int>, seq2: seq<int>) returns (similarity: real)
    ensures similarity == LevenshteinScore(seq1, seq2)
    ensures 0.0 <= similarity <= 1.0
  {
    LevenshteinScoreBounds(seq1, seq2);
    if seq1 == [] || seq2 == [] {
      return 0.0;
    }
    var m, n := |seq1|, |seq2|;
    var dp := new nat[m + 1, n + 1];
    for i := 0 to m + 1
      invariant forall ii :: 0 <= ii < i ==> dp[ii, 0] == ii
    {
      dp[i, 0] := i;
    }
    for j := 0 to n + 1
      invariant forall ii :: 0 <= ii <= m ==> dp[ii, 0] == ii
      invariant forall jj :: 0 <= jj < j ==> dp[0, jj] == jj
    {
      dp[0, j] := j;
    }
    for i := 1 to m + 1
      invariant Filled(dp, seq1, seq2, i)
      invariant forall ii :: i <= ii <= m ==> dp[ii, 0] == ii
    {
      FillRow(dp, seq1, seq2, i);
    }
    var maxLen := if m >= n then m else n;
    similarity := 1.0 - dp[m, n] as real / maxLen as real;
  }

  // ---------------------------------------------------------------------
  // Matching against the catalogue
  // ---------------------------------------------------------------------

  /** A catalogue entry; absent keys are empty sequences or `None`. */
  datatype Pattern = Pattern(
    songId: Option<int>,
    title: Option<string>,
    artist: Option<string>,
    intervals: seq<int>,
    notes: seq<int>,
    rhythm: seq<string>)

  datatype MatchType = Sliding | Subsequence | Start

  datatype SongMatch = SongMatch(songId: Option<int>, title: string, confidence: int, artist: string, matchType: MatchType)

  /** The pattern's intervals, derived from its notes only when none are stored. */
  function SongIntervals(p: Pattern): seq<int>
  {
    if p.intervals == [] && p.notes != [] then Melody.Intervals(p.notes) else p.intervals
  }

  /** The best of the three pitch scores, the opening score boosted by 10%. */
  function PitchScore(sliding: real, subseq: real, start: real): real
  {
    MaxReal(MaxReal(sliding, subseq), start * 1.1)
  }

  /** The scorer that produced the best pitch score, the earliest one on a tie. */
  function Strategy(sliding: real, subseq: real, start: real): (t: MatchType)
    ensures t == Sliding ==> sliding == PitchScore(sliding, subseq, start)
    ensures t == Subsequence ==> subseq == PitchScore(sliding, subseq, start) && sliding < subseq
    ensures t == Start ==> start * 1.1 == PitchScore(sliding, subseq, start) && sliding < start * 1.1 && subseq < start * 1.1
  {
    var best := PitchScore(sliding, subseq, start);
    if sliding == best then Sliding else if subseq == best then Subsequence else Start
  }

  /** The pitch score, blended 70/30 with the rhythm score when both rhythms are known. */
  function FinalScore(pitch: real, playedRhythm: seq<string>, songRhythm: seq<string>): real
  {
    if playedRhythm != [] && songRhythm != [] then
      pitch * (1.0 - RHYTHM_WEIGHT) + RhythmScore(playedRhythm, songRhythm) * RHYTHM_WEIGHT
    else pitch
  }

  /** The percentage shown for a final score, capped at 99. */
  function Confidence(score: real): int
  {
    MinInt(RoundHalfEven(score * 100.0), CONFIDENCE_CAP)
  }

  /** The match a pattern yields, if it has enough intervals and scores at least 0.6. */
  function Evaluate(p: Pattern, played: seq<int>, playedRhythm: seq<string>): Option<SongMatch>
  {
    var song := SongIntervals(p);
    if |song| < MIN_SONG_INTERVALS then None
    else
      var sl, sub, st := SlidingScore(played, song), SubsequenceScore(played, song), StartScore(played, song);
      var score := FinalScore(PitchScore(sl, sub, st), playedRhythm, p.rhythm);
      if score >= SIMILARITY_THRESHOLD then
        Some(SongMatch(p.songId, p.title.GetOr("Unknown"), Confidence(score), p.artist.GetOr(""), Strategy(sl, sub, st)))
      else None
  }

  /** The matches of the patterns, in catalogue order. */
  function Candidates(patterns: seq<Pattern>, played: seq<int>, playedRhythm: seq<string>): seq<SongMatch>
  {
    if patterns == [] then []
    else
      var rest := Candidates(patterns[..|patterns| - 1], played, playedRhythm);
      match Evaluate(patterns[|patterns| - 1], played, playedRhythm)
      case Some(m) => rest + [m]
      case None => rest
  }

  /** Only patterns with at least three intervals can match, and every match is at 60 to 99 percent. */
  lemma EvaluateBounds(p: Pattern, played: seq<int>, playedRhythm: seq<string>)
    requires Evaluate(p, played, playedRhythm).Some?
    ensures |SongIntervals(p)| >= MIN_SONG_INTERVALS
    ensures 60 <= Evaluate(p, played, playedRhythm).value.confidence <= 99
  {
    var song := SongIntervals(p);
    var sl, sub, st := SlidingScore(played, song), SubsequenceScore(played, song), StartScore(played, song);
    var score := FinalScore(PitchScore(sl, sub, st), playedRhythm, p.rhythm);
    RoundMonotone(60.0, score * 100.0);
    RoundInteger(60);
  }

  lemma {:induction false} CandidatesBounds(patterns: seq<Pattern>, played: seq<int>, playedRhythm: seq<string>)
    ensures |Candidates(patterns, played, playedRhythm)| <= |patterns|
    ensures forall m :: m in Candidates(patterns, played, playedRhythm) ==> 60 <= m.confidence <= 99
  {
    if patterns != [] {
      var last := patterns[|patterns| - 1];
      CandidatesBounds(patterns[..|patterns| - 1], played, playedRhythm);
      if Evaluate(last, played, playedRhythm).Some? {
        EvaluateBounds(last, played, playedRhythm);
      }
    }
  }

  /** Inserts m after every element whose confidence is at least m's, so that ties keep their order. */
  function InsertDesc(m: SongMatch, sorted: seq<SongMatch>): (r: seq<SongMatch>)
    ensures multiset(r) == multiset(sorted) + multiset{m}
  {
    if sorted == [] then [m]
    else
      assert sorted == [sorted[0]] + sorted[1..];
      if sorted[0].confidence >= m.confidence then [sorted[0]] + InsertDesc(m, sorted[1..])
      else [m] + sorted
  }

  /** Stable sort by non-increasing confidence (`list.sort(reverse=True)` on the confidence). */
  function SortDesc(ms: seq<SongMatch>): (r: seq<SongMatch>)
    ensures multiset(r) == multiset(ms)
  {
    if ms == [] then []
    else
      assert ms == ms[..|ms| - 1] + [ms[|ms| - 1]];
      InsertDesc(ms[|ms| - 1], SortDesc(ms[..|ms| - 1]))
  }

  predicate SortedDesc(ms: seq<SongMatch>)
  {
    forall i, j :: 0 <= i < j < |ms| ==> ms[i].confidence >= ms[j].confidence
  }

  lemma {:induction false} InsertDescSorted(m: SongMatch, sorted: seq<SongMatch>)
    requires SortedDesc(sorted)
    ensures SortedDesc(InsertDesc(m, sorted))
  {
    if sorted != [] && sorted[0].confidence >= m.confidence {
      InsertDescSorted(m, sorted[1..]);
      var r := InsertDesc(m, sorted);
      forall i, j | 0 <= i < j < |r| ensures r[i].confidence >= r[j].confidence {
        if i == 0 {
          assert r[j] in multiset(sorted[1..]) + multiset{m};
          assert r[j] in sorted[1..] || r[j] == m;
        }
      }
    }
  }

  lemma {:induction false} SortDescSorted(ms: seq<SongMatch>)
    ensures SortedDesc(SortDesc(ms))
  {
    if ms != [] {
      SortDescSorted(ms[..|ms| - 1]);
      InsertDescSorted(ms[|ms| - 1], SortDesc(ms[..|ms| - 1]));
    }
  }

  /** The match itself when its confidence is c, else nothing. */
  function TieOf(m: SongMatch, c: int): seq<SongMatch>
  {
    if m.confidence == c then [m] else []
  }

  /** The matches of confidence c, in their order. */
  function Ties(ms: seq<SongMatch>, c: int): (r: seq<SongMatch>)
    ensures |r| <= |ms|
  {
    if ms == [] then []
    else Ties(ms[..|ms| - 1], c) + TieOf(ms[|ms| - 1], c)
  }

  lemma {:induction false} TiesCons(x: SongMatch, ms: seq<SongMatch>, c: int)
    ensures Ties([x] + ms, c) == TieOf(x, c) + Ties(ms, c)
    decreases |ms|
  {
    if ms != [] {
      var init, last := ms[..|ms| - 1], ms[|ms| - 1];
      var tl := TieOf(last, c);
      var xs := [x] + ms;
      assert xs[..|xs| - 1] == [x] + init && xs[|xs| - 1] == last;
      assert Ties(xs, c) == Ties([x] + init, c) + tl;
      TiesCons(x, init, c);
      assert Ties(ms, c) == Ties(init, c) + tl;
    }
  }

  lemma {:induction false} NoTies(ms: seq<SongMatch>, c: int)
    requires forall i :: 0 <= i < |ms| ==> ms[i].confidence < c
    ensures Ties(ms, c) == []
    decreases |ms|
  {
    if ms != [] {
      NoTies(ms[..|ms| - 1], c);
    }
  }

  lemma SortedDescTail(sorted: seq<SongMatch>)
    requires sorted != [] && SortedDesc(sorted)
    ensures SortedDesc(sorted[1..])
    ensures forall i :: 0 <= i < |sorted| ==> sorted[i].confidence <= sorted[0].confidence
  {
    forall i, j | 0 <= i < j < |sorted[1..]| ensures sorted[1..][i].confidence >= sorted[1..][j].confidence {
      assert sorted[1..][i] == sorted[i + 1] && sorted[1..][j] == sorted[j + 1];
    }
  }

  /** A match of higher confidence than all of a list goes in front of it, and past all its ties. */
  lemma InsertDescFront(m: SongMatch, sorted: seq<SongMatch>, c: int)
    requires sorted != [] && sorted[0].confidence < m.confidence
    requires forall i :: 0 <= i < |sorted| ==> sorted[i].confidence <= sorted[0].confidence
    ensures Ties(InsertDesc(m, sorted), c) == Ties(sorted, c) + TieOf(m, c)
  {
    assert InsertDesc(m, sorted) == [m] + sorted;
    TiesCons(m, sorted, c);
    if m.confidence == c {
      NoTies(sorted, c);
    }
  }

  /** Inserting into a sorted list puts m after every match of its own confidence. */
  lemma {:induction false} InsertDescTies(m: SongMatch, sorted: seq<SongMatch>, c: int)
    requires SortedDesc(sorted)
    ensures Ties(InsertDesc(m, sorted), c) == Ties(sorted, c) + TieOf(m, c)
    decreases |sorted|, 1
  {
    if sorted == [] {
      assert InsertDesc(m, sorted) == [m];
      assert Ties([m], c) == Ties([], c) + TieOf(m, c);
    } else {
      SortedDescTail(sorted);
      if sorted[0].confidence >= m.confidence {
        InsertDescAfter(m, sorted, c);
      } else {
        InsertDescFront(m, sorted, c);
      }
    }
  }

  /** A match of at most the head's confidence goes after the head, and the rest follows by induction. */
  lemma {:induction false} InsertDescAfter(m: SongMatch, sorted: seq<SongMatch>, c: int)
    requires sorted != [] && sorted[0].confidence >= m.confidence && SortedDesc(sorted[1..])
    ensures Ties(InsertDesc(m, sorted), c) == Ties(sorted, c) + TieOf(m, c)
    decreases |sorted|, 0
  {
    var head, rest := sorted[0], sorted[1..];
    assert sorted == [head] + rest;
    assert InsertDesc(m, sorted) == [head] + InsertDesc(m, rest);
    InsertDescTies(m, rest, c);
    TiesCons(head, rest, c);
    TiesCons(head, InsertDesc(m, rest), c);
    ConcatAssoc(TieOf(head, c), Ties(rest, c), TieOf(m, c));
  }

  lemma ConcatAssoc(a: seq<SongMatch>, b: seq<SongMatch>, d: seq<SongMatch>)
    ensures a + (b + d) == (a + b) + d
  {
  }

  /** The sort is stable: matches of equal confidence keep their relative order. */
  lemma {:induction false} SortDescKeepsTieOrder(ms: seq<SongMatch>, c: int)
    ensures Ties(SortDesc(ms), c) == Ties(ms, c)
  {
    if ms != [] {
      var init := ms[..|ms| - 1];
      SortDescKeepsTieOrder(init, c);
      SortDescSorted(init);
      InsertDescTies(ms[|ms| - 1], SortDesc(init), c);
    }
  }

  /** What the matcher returns, as a specification. */
  function MatchSongs(playedNotes: seq<int>, patterns: seq<Pattern>, playedTimes: seq<int>): seq<SongMatch>
  {
    if |playedNotes| < MIN_NOTES_FOR_MATCH then []
    else
      var playedRhythm := if |playedTimes| >= 2 then Rhythm(Melody.Intervals(playedTimes)) else [];
      var sorted := SortDesc(Candidates(patterns, Melody.Intervals(playedNotes), playedRhythm));
      if |sorted| <= MAX_MATCHES then sorted else sorted[..MAX_MATCHES]
  }

  /**
   * The properties the matcher promises: nothing for fewer than four
   * notes, at most five matches and no more than there are patterns, in
   * non-increasing confidence, each between 60 and 99 percent.
   */
  lemma MatchSongsProperties(playedNotes: seq<int>, patterns: seq<Pattern>, playedTimes: seq<int>)
    ensures var r := MatchSongs(playedNotes, patterns, playedTimes);
      && (|playedNotes| < MIN_NOTES_FOR_MATCH ==> r == [])
      && |r| <= MAX_MATCHES && |r| <= |patterns|
      && SortedDesc(r)
      && forall m :: m in r ==> 60 <= m.confidence <= 99
  {
    if |playedNotes| >= MIN_NOTES_FOR_MATCH {
      var playedRhythm := if |playedTimes| >= 2 then Rhythm(Melody.Intervals(playedTimes)) else [];
      var cands := Candidates(patterns, Melody.Intervals(playedNotes), playedRhythm);
      var sorted := SortDesc(cands);
      CandidatesBounds(patterns, Melody.Intervals(playedNotes), playedRhythm);
      SortDescSorted(cands);
      assert |sorted| == |multiset(sorted)| == |multiset(cands)| == |cands|;
      forall m | m in sorted ensures 60 <= m.confidence <= 99 {
        assert m in multiset(cands);
      }
      var r := MatchSongs(playedNotes, patterns, playedTimes);
      forall m | m in r ensures m in sorted {
      }
    }
  }

  /** The body of the matcher's loop: one pattern scored as the service scores it. */
  method EvaluatePattern(pattern: Pattern, playedIntervals: seq<int>, playedRhythm: seq<string>)
    returns (m: Option<SongMatch>)
    ensures m == Evaluate(pattern, playedIntervals, playedRhythm)
  {
    var songIntervals := pattern.intervals;
    if songIntervals == [] && pattern.notes != [] {
      songIntervals := Melody.CalculateIntervals(pattern.notes);
    }
    if |songIntervals| < MIN_SONG_INTERVALS {
      return None;
    }
    var sliding := SlidingWindowMatch(playedIntervals, songIntervals);
    var subseq := SubsequenceMatch(playedIntervals, songIntervals);
    var start := StartMatch(playedIntervals, songIntervals);
    var pitch := PitchScore(sliding, subseq, start);
    var finalScore := pitch;
    if playedRhythm != [] && pattern.rhythm != [] {
      var rhythm := RhythmMatch(playedRhythm, pattern.rhythm);
      finalScore := pitch * (1.0 - RHYTHM_WEIGHT) + rhythm * RHYTHM_WEIGHT;
    }
    if finalScore >= SIMILARITY_THRESHOLD {
      m := Some(SongMatch(pattern.songId, pattern.title.GetOr("Unknown"), Confidence(finalScore),
        pattern.artist.GetOr(""), Strategy(sliding, subseq, start)));
    } else {
      m := None;
    }
  }

  /**
   * `find_matching_songs`: scores every pattern in catalogue order with the
   * three scorers (and the rhythm scorer when both rhythms are known), keeps
   * those at or above the threshold, sorts them and returns the top five.
   * Absent played times are the empty sequence.
   */
  method FindMatchingSongs(playedNotes: seq<int>, patterns: seq<Pattern>, playedTimes: seq<int>)
    returns (matches: seq<SongMatch>)
    ensures matches == MatchSongs(playedNotes, patterns, playedTimes)
    ensures |playedNotes| < MIN_NOTES_FOR_MATCH ==> matches == []
    ensures |matches| <= MAX_MATCHES && SortedDesc(matches)
    ensures forall m :: m in matches ==> 60 <= m.confidence <= 99
  {
    MatchSongsProperties(playedNotes, patterns, playedTimes);
    if |playedNotes| < MIN_NOTES_FOR_MATCH {
      return [];
    }
    var playedIntervals := Melody.CalculateIntervals(playedNotes);
    var playedRhythm: seq<string> := [];
    if |playedTimes| >= 2 {
      var timeIntervals := Melody.CalculateIntervals(playedTimes);
      playedRhythm := NormalizeRhythm(timeIntervals);
    }
    assert playedRhythm == if |playedTimes| >= 2 then Rhythm(Melody.Intervals(playedTimes)) else [];
    var found: seq<SongMatch> := [];
    for k := 0 to |patterns|
      invariant found == Candidates(patterns[..k], playedIntervals, playedRhythm)
    {
      assert patterns[..k + 1][..k] == patterns[..k];
      var m := EvaluatePattern(patterns[k], playedIntervals, playedRhythm);
      if m.Some? {
        found := found + [m.value];
      }
    }
    assert patterns[..|patterns|] == patterns;
    var sorted := SortDesc(found);
    matches := if |sorted| <= MAX_MATCHES then sorted else sorted[..MAX_MATCHES];
  }
}
