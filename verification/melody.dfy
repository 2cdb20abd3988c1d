/**
 * Successive pitch differences ("intervals"), the transposition-invariant
 * form in which every part of the backend stores and compares melodies.
 * The same loop appears in the recognition service, the tutorial parser,
 * the admin handlers, the seed helpers and the three catalogue scripts;
 * they all share `CalculateIntervals`.
 */
module Melody {

  /** Element i is `notes[i + 1] - notes[i]`. */
  function Intervals(notes: seq<int>): seq<int>
  {
    if |notes| < 2 then [] else Intervals(notes[..|notes| - 1]) + [notes[|notes| - 1] - notes[|notes| - 2]]
  }

  /** There is one interval fewer than notes, and each is the step between two neighbours. */
  lemma {:induction false} IntervalsShape(notes: seq<int>)
    ensures |Intervals(notes)| == if |notes| < 2 then 0 else |notes| - 1
    ensures forall i :: 0 <= i < |Intervals(notes)| ==> Intervals(notes)[i] == notes[i + 1] - notes[i]
  {
    if |notes| >= 2 {
      var init := notes[..|notes| - 1];
      IntervalsShape(init);
      assert forall i :: 0 <= i < |init| ==> init[i] == notes[i];
    }
  }

  function Sum(xs: seq<int>): int
  {
    if xs == [] then 0 else Sum(xs[..|xs| - 1]) + xs[|xs| - 1]
  }

  /** The intervals add up to the distance from the first note to the last. */
  lemma {:induction false} IntervalsSum(notes: seq<int>)
    requires notes != []
    ensures Sum(Intervals(notes)) == notes[|notes| - 1] - notes[0]
  {
    if |notes| >= 2 {
      var init := notes[..|notes| - 1];
      IntervalsSum(init);
      var iv := Intervals(notes);
      assert iv[..|iv| - 1] == Intervals(init);
    }
  }

  function Shift(notes: seq<int>, k: int): (r: seq<int>)
    ensures |r| == |notes| && forall i :: 0 <= i < |notes| ==> r[i] == notes[i] + k
  {
    seq(|notes|, i requires 0 <= i < |notes| => notes[i] + k)
  }

  /** Transposing every note by the same amount leaves the intervals unchanged. */
  lemma {:induction false} IntervalsShift(notes: seq<int>, k: int)
    ensures Intervals(Shift(notes, k)) == Intervals(notes)
  {
    if |notes| >= 2 {
      var init := notes[..|notes| - 1];
      assert Shift(notes, k)[..|notes| - 1] == Shift(init, k);
      IntervalsShift(init, k);
    }
  }

  /** Keeping the first n + 1 notes keeps exactly the first n intervals. */
  lemma IntervalsPrefix(notes: seq<int>, n: nat)
    requires n + 1 <= |notes|
    ensures n <= |Intervals(notes)| && Intervals(notes[..n + 1]) == Intervals(notes)[..n]
  {
    var prefix := notes[..n + 1];
    IntervalsShape(notes);
    IntervalsShape(prefix);
    forall i | 0 <= i < n
      ensures Intervals(prefix)[i] == Intervals(notes)[i]
    {
      assert prefix[i] == notes[i] && prefix[i + 1] == notes[i + 1];
    }
  }

  /** The loop shared by every `calculate_intervals` of the backend. */
  method CalculateIntervals(notes: seq<int>) returns (intervals: seq<int>)
    ensures intervals == Intervals(notes)
    ensures |intervals| == if |notes| < 2 then 0 else |notes| - 1
  {
    intervals := [];
    if notes == [] {
      return;
    }
    var i := 1;
    while i < |notes|
      invariant 1 <= i <= |notes|
      invariant intervals == Intervals(notes[..i])
    {
      assert notes[..i + 1][..i] == notes[..i];
      intervals := intervals + [notes[i] - notes[i - 1]];
      i := i + 1;
    }
    assert notes[..i] == notes;
    IntervalsShape(notes);
  }
}
