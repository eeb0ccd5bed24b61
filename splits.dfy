/**
 * The list of recorded splits, `st.session_state.splits` (stopwatch.py:22),
 * as a value: each entry is a `(split_duration, cum_time)` pair. This module
 * holds what the handlers compute from the list (the last cumulative,
 * stopwatch.py:43 and 55), the sum behind "Selected splits total"
 * (stopwatch.py:85), and the facts about them that the stopwatch relies on.
 */
module Splits {

  /** One recorded split: its own length and the elapsed time when it was taken. */
  datatype Split = Split(duration: real, cumulative: real)

  /** `splits[-1][1] if splits else 0` (stopwatch.py:43, 55). */
  function LastCum(s: seq<Split>): (r: real)
    ensures r == PrevCum(s, |s|)
    ensures s == [] ==> r == 0.0
  {
    if s == [] then 0.0 else s[|s| - 1].cumulative
  }

  /** The cumulative that split `i` was measured from: its predecessor's, or 0 for the first. */
  function PrevCum(s: seq<Split>, i: nat): real
    requires i <= |s|
  {
    if i == 0 then 0.0 else s[i - 1].cumulative
  }

  /**
   * Every entry's cumulative is its predecessor's plus its own duration
   * (the first entry's is its duration), as ChainedAt states entry by entry.
   */
  predicate Chained(s: seq<Split>)
    decreases |s|
  {
    s == [] ||
    var p := s[..|s| - 1];
    Chained(p) && s[|s| - 1].cumulative == LastCum(p) + s[|s| - 1].duration
  }

  predicate NonNegDurations(s: seq<Split>) {
    forall i :: 0 <= i < |s| ==> s[i].duration >= 0.0
  }

  /** The durations of all entries added up. */
  function SumDurations(s: seq<Split>): real {
    if s == [] then 0.0 else SumDurations(s[..|s| - 1]) + s[|s| - 1].duration
  }

  /**
   * The total of the durations at the indices in `sel`. An index that names
   * no entry contributes nothing.
   */
  function SumSelected(s: seq<Split>, sel: set<nat>): (r: real)
    ensures (forall i: nat :: i < |s| ==> i !in sel) ==> r == 0.0
    ensures NonNegDurations(s) ==> r >= 0.0
  {
    if s == [] then 0.0
    else SumSelected(s[..|s| - 1], sel) + (if |s| - 1 in sel then s[|s| - 1].duration else 0.0)
  }

  /**
   * Appending the entry the handlers build (stopwatch.py:44-46, 56-57) keeps
   * the list chained, makes `cum` its last cumulative, leaves the earlier
   * entries alone, and adds no negative duration unless the clock went back.
   */
  lemma AppendSplit(s: seq<Split>, cum: real)
    requires Chained(s)
    ensures var t := s + [Split(cum - LastCum(s), cum)];
      && Chained(t) && LastCum(t) == cum && t[..|s|] == s
      && (NonNegDurations(s) && LastCum(s) <= cum ==> NonNegDurations(t))
  {
    var t := s + [Split(cum - LastCum(s), cum)];
    assert t[..|s|] == s;
    if NonNegDurations(s) && LastCum(s) <= cum {
      forall i | 0 <= i < |t| ensures t[i].duration >= 0.0 {
        if i < |s| { assert t[i] == s[i]; }
      }
    }
  }

  lemma {:induction false} ChainedPrefix(s: seq<Split>, n: nat)
    requires Chained(s) && n <= |s|
    ensures Chained(s[..n])
    decreases |s|
  {
    if n < |s| {
      var p := s[..|s| - 1];
      assert p[..n] == s[..n];
      ChainedPrefix(p, n);
    } else {
      assert s[..n] == s;
    }
  }

  /** The chain condition at one entry. */
  lemma {:induction false} ChainedAt(s: seq<Split>, i: nat)
    requires Chained(s) && i < |s|
    ensures s[i].cumulative == PrevCum(s, i) + s[i].duration
    decreases |s|
  {
    var p := s[..|s| - 1];
    if i < |s| - 1 {
      ChainedAt(p, i);
      assert p[i] == s[i];
      assert PrevCum(p, i) == PrevCum(s, i);
    }
  }

  /** The last cumulative is the sum of all durations. */
  lemma {:induction false} CumulativeIsRunningSum(s: seq<Split>)
    requires Chained(s)
    ensures LastCum(s) == SumDurations(s)
    decreases |s|
  {
    if s != [] {
      CumulativeIsRunningSum(s[..|s| - 1]);
    }
  }

  /** Every cumulative is the sum of the durations up to and including its own. */
  lemma CumulativeIsPrefixSum(s: seq<Split>, k: nat)
    requires Chained(s) && k < |s|
    ensures s[k].cumulative == SumDurations(s[..k + 1])
  {
    ChainedPrefix(s, k + 1);
    CumulativeIsRunningSum(s[..k + 1]);
  }

  /** Walking back from `j` to `i` only ever subtracts non-negative durations. */
  lemma {:induction false} CumulativeGrows(s: seq<Split>, i: nat, j: nat)
    requires Chained(s) && NonNegDurations(s) && i <= j < |s|
    ensures s[i].cumulative <= s[j].cumulative
    decreases j - i
  {
    if i < j {
      CumulativeGrows(s, i, j - 1);
      ChainedAt(s, j);
    }
  }

  lemma {:induction false} CumulativeNonNegative(s: seq<Split>, j: nat)
    requires Chained(s) && NonNegDurations(s) && j < |s|
    ensures 0.0 <= s[j].cumulative
  {
    if j > 0 {
      CumulativeNonNegative(s, j - 1);
    }
    ChainedAt(s, j);
  }

  /** With no negative durations, cumulatives are non-negative and never decrease along the list. */
  lemma CumulativesNondecreasing(s: seq<Split>)
    requires Chained(s) && NonNegDurations(s)
    ensures forall i, j :: 0 <= i <= j < |s| ==> 0.0 <= s[i].cumulative <= s[j].cumulative
  {
    forall i, j | 0 <= i <= j < |s|
      ensures 0.0 <= s[i].cumulative <= s[j].cumulative
    {
      CumulativeNonNegative(s, i);
      CumulativeGrows(s, i, j);
    }
  }

  /** Only the indices that name an entry matter to the sum. */
  lemma {:induction false} SumSelectedIgnoresOutOfRange(s: seq<Split>, a: set<nat>, b: set<nat>)
    requires forall i: nat :: i < |s| ==> (i in a <==> i in b)
    ensures SumSelected(s, a) == SumSelected(s, b)
  {
    if s != [] {
      SumSelectedIgnoresOutOfRange(s[..|s| - 1], a, b);
    }
  }

  /** An empty selection sums to 0. */
  lemma {:induction false} SumSelectedNone(s: seq<Split>)
    ensures SumSelected(s, {}) == 0.0
  {
    if s != [] {
      SumSelectedNone(s[..|s| - 1]);
    }
  }

  /** Ticking one more split adds exactly its duration to the total. */
  lemma {:induction false} SumSelectedAdd(s: seq<Split>, sel: set<nat>, i: nat)
    requires i < |s| && i !in sel
    ensures SumSelected(s, sel + {i}) == SumSelected(s, sel) + s[i].duration
  {
    var p := s[..|s| - 1];
    if i == |s| - 1 {
      SumSelectedIgnoresOutOfRange(p, sel + {i}, sel);
    } else {
      SumSelectedAdd(p, sel, i);
    }
  }

  /** Selecting every split sums to the sum of all durations. */
  lemma {:induction false} SumSelectedAll(s: seq<Split>, sel: set<nat>)
    requires forall i: nat :: i < |s| ==> i in sel
    ensures SumSelected(s, sel) == SumDurations(s)
  {
    if s != [] {
      SumSelectedAll(s[..|s| - 1], sel);
    }
  }

  /** With no negative durations, any selection sums to between 0 and the total of all durations. */
  lemma {:induction false} SumSelectedBounded(s: seq<Split>, sel: set<nat>)
    requires NonNegDurations(s)
    ensures 0.0 <= SumSelected(s, sel) <= SumDurations(s)
  {
    if s != [] {
      var p := s[..|s| - 1];
      assert NonNegDurations(p) by {
        forall i | 0 <= i < |p| ensures p[i].duration >= 0.0 { assert p[i] == s[i]; }
      }
      SumSelectedBounded(p, sel);
    }
  }

  /** Durations 1, 2 and 3 with the first and third ticked total 4. */
  lemma SumSelectedExample()
    ensures SumSelected([Split(1.0, 1.0), Split(2.0, 3.0), Split(3.0, 6.0)], {0, 2}) == 4.0
  {
    var s := [Split(1.0, 1.0), Split(2.0, 3.0), Split(3.0, 6.0)];
    assert s[..2][..1] == [Split(1.0, 1.0)];
    assert s[..2][..1][..0] == [];
    assert SumSelected(s[..2][..1][..0], {0, 2}) == 0.0;
    assert SumSelected(s[..2][..1], {0, 2}) == 1.0;
    assert SumSelected(s[..2], {0, 2}) == 1.0;
  }
}
