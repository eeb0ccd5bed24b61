/**
 * The stopwatch held in `st.session_state` (stopwatch.py:18-23) and the
 * button handlers that change it (stopwatch.py:34-66), the selection loop
 * (stopwatch.py:73-80) and the two readings derived from the state: the big
 * timer display (stopwatch.py:28) and the selected-splits total
 * (stopwatch.py:84-85).
 *
 * `time.time()` is not modelled: each command receives the clock reading
 * `now` as a parameter. Nothing forces the readings to increase; the facts
 * that need an increasing clock are stated through CoherentAt.
 */
module StopwatchEngine {
  import Splits
  import opened Optional

  /** A final split on stop is recorded only when it is longer than this many seconds. */
  const Debounce: real := 0.01

  class Stopwatch {
    var running: bool
    var startTime: real
    var elapsed: real
    var splits: seq<Splits.Split>
    var selected: set<nat>

    /** Each cumulative extends its predecessor, and only existing splits can be selected. */
    predicate Valid()
      reads this
    {
      && Splits.Chained(splits)
      && forall i :: i in selected ==> i < |splits|
    }

    /**
     * The state is what a clock that has reached `t` can have produced: no
     * negative time is stored, and a split or stop at `t` would record a
     * cumulative no smaller than the last one.
     */
    predicate CoherentAt(t: real)
      reads this
    {
      && elapsed >= 0.0
      && Splits.NonNegDurations(splits)
      && 0.0 <= Splits.LastCum(splits)
      && (if running then Splits.LastCum(splits) <= t - startTime
          else Splits.LastCum(splits) <= elapsed)
    }

    /** The session's first run (stopwatch.py:18-23). */
    constructor ()
      ensures Valid()
      ensures !running && startTime == 0.0 && elapsed == 0.0
      ensures splits == [] && selected == {}
      ensures forall t :: CoherentAt(t)
    {
      running := false;
      startTime := 0.0;
      elapsed := 0.0;
      splits := [];
      selected := {};
    }

    /**
     * The elapsed time at clock reading `now` as the recorded splits count
     * it: `now - start_time` while running, the frozen value otherwise.
     * Not in the program; it is the reading the display was meant to show.
     */
    function ElapsedAt(now: real): (r: real)
      reads this
      ensures CoherentAt(now) ==> 0.0 <= Splits.LastCum(splits) <= r
    {
      if running then now - startTime else elapsed
    }

    /**
     * The big timer reading, as written at stopwatch.py:28. While running it
     * adds `elapsed` on top of `now - start_time`, which already contains it.
     */
    function Display(now: real): (r: real)
      reads this
      ensures r == ElapsedAt(now) + (if running then elapsed else 0.0)
      ensures CoherentAt(now) ==> r >= Splits.LastCum(splits) >= 0.0
    {
      if !running then elapsed else (now - startTime) + elapsed
    }

    /** Start or resume (stopwatch.py:35-38), the Start/Stop button while stopped. */
    method Start(now: real)
      requires Valid() && !running
      modifies this`startTime, this`running
      ensures Valid() && running
      ensures startTime == now - old(elapsed)
      ensures ElapsedAt(now) == old(elapsed)
      ensures elapsed == old(elapsed) && splits == old(splits) && selected == old(selected)
      ensures old(CoherentAt(now)) ==> CoherentAt(now)
    {
      startTime := now - elapsed;
      running := true;
    }

    /** Stop (stopwatch.py:40-48), the Start/Stop button while running. */
    method Stop(now: real)
      requires Valid() && running
      modifies this`splits, this`elapsed, this`running
      ensures Valid() && !running
      ensures var cum := now - startTime;
        var splitDur := cum - Splits.LastCum(old(splits));
        && elapsed == cum
        && splits == if splitDur > Debounce then old(splits) + [Splits.Split(splitDur, cum)] else old(splits)
      ensures elapsed == old(ElapsedAt(now))
      ensures |splits| > old(|splits|) ==> splits[|splits| - 1].duration > Debounce
      ensures elapsed - Debounce <= Splits.LastCum(splits)
      ensures old(CoherentAt(now)) ==> CoherentAt(now) && Splits.LastCum(splits) <= elapsed
      ensures startTime == old(startTime) && selected == old(selected)
    {
      var cum := now - startTime;
      var lastCum := Splits.LastCum(splits);
      var splitDur := cum - lastCum;
      if splitDur > Debounce {
        Splits.AppendSplit(splits, cum);
        splits := splits + [Splits.Split(splitDur, cum)];
      }
      elapsed := cum;
      running := false;
    }

    /** Split (stopwatch.py:53-57); the button is disabled while stopped. */
    method Split(now: real)
      requires Valid() && running
      modifies this`splits
      ensures Valid()
      ensures var cum := now - startTime;
        splits == old(splits) + [Splits.Split(cum - Splits.LastCum(old(splits)), cum)]
      ensures Splits.LastCum(splits) == old(ElapsedAt(now))
      ensures running && startTime == old(startTime) && elapsed == old(elapsed) && selected == old(selected)
      ensures old(CoherentAt(now)) ==> CoherentAt(now)
    {
      var cum := now - startTime;
      var lastCum := Splits.LastCum(splits);
      var splitDur := cum - lastCum;
      Splits.AppendSplit(splits, cum);
      splits := splits + [Splits.Split(splitDur, cum)];
    }

    /** Clear (stopwatch.py:62-66): back to the first-run state from any state. */
    method Clear()
      modifies this
      ensures Valid()
      ensures !running && startTime == 0.0 && elapsed == 0.0
      ensures splits == [] && selected == {}
      ensures forall t :: CoherentAt(t)
    {
      running := false;
      elapsed := 0.0;
      startTime := 0.0;
      splits := [];
      selected := {};
    }

    /**
     * The checkbox loop (stopwatch.py:73-80): the checkbox of split `i`
     * reads `checked[i]`, and `i` is added to or discarded from the
     * selection accordingly.
     */
    method ApplyCheckboxes(checked: seq<bool>)
      requires Valid() && |checked| == |splits|
      modifies this`selected
      ensures Valid()
      ensures selected == set i: nat | i < |splits| && checked[i]
      ensures running == old(running) && splits == old(splits) && elapsed == old(elapsed)
    {
      for i := 0 to |splits|
        invariant forall j :: j in selected ==> j < |splits|
        invariant forall j: nat :: j < i ==> (j in selected <==> checked[j])
      {
        if checked[i] {
          selected := selected + {i};
        } else {
          selected := selected - {i};
        }
      }
    }

    /**
     * "Selected splits total" (stopwatch.py:84-88): nothing while no split
     * is selected, otherwise the sum of the selected durations, which is at
     * most the time on the last split when the clock never went back.
     */
    function SelectedTotal(): (r: Option<real>)
      reads this
      requires Valid()
      ensures r.None? <==> selected == {}
      ensures r.Some? ==> r.value == Splits.SumSelected(splits, selected)
      ensures r.Some? && Splits.NonNegDurations(splits) ==> 0.0 <= r.value <= Splits.LastCum(splits)
    {
      if selected == {} then None
      else
        var total := Splits.SumSelected(splits, selected);
        if Splits.NonNegDurations(splits) then
          Splits.SumSelectedBounded(splits, selected);
          Splits.CumulativeIsRunningSum(splits);
          Some(total)
        else Some(total)
    }
  }

  /** A state coherent with an earlier clock reading is coherent with a later one. */
  lemma CoherentLater(sw: Stopwatch, t: real, u: real)
    requires sw.CoherentAt(t) && t <= u
    ensures sw.CoherentAt(u)
  {
  }

  /**
   * Pause and resume neither lose nor double-count time: two runs from t0
   * to t1 and from t2 to t3 leave exactly their lengths in `elapsed`, and
   * the last split lies within the debounce below it.
   */
  method PauseResume(t0: real, t1: real, t2: real, t3: real) returns (total: real, lastCum: real)
    ensures total == (t1 - t0) + (t3 - t2)
    ensures total - Debounce <= lastCum
    ensures t0 <= t1 <= t2 <= t3 ==> lastCum <= total
  {
    var monotone := t0 <= t1 <= t2 <= t3;
    var sw := new Stopwatch();
    sw.Start(t0);
    if monotone { CoherentLater(sw, t0, t1); }
    sw.Stop(t1);
    assert sw.elapsed == t1 - t0;
    if monotone { CoherentLater(sw, t1, t2); }
    sw.Start(t2);
    assert sw.startTime == t2 - (t1 - t0);
    if monotone { CoherentLater(sw, t2, t3); }
    sw.Stop(t3);
    assert sw.elapsed == (t1 - t0) + (t3 - t2);
    total, lastCum := sw.elapsed, Splits.LastCum(sw.splits);
  }

  /** Stop right after a split records a second entry only when more than 0.01 s has passed. */
  method SplitThenStop(t0: real, t1: real, t2: real) returns (count: nat)
    ensures count == if t2 - t1 > Debounce then 2 else 1
  {
    var sw := new Stopwatch();
    sw.Start(t0);
    sw.Split(t1);
    sw.Stop(t2);
    count := |sw.splits|;
  }

  /** Two splits always record two entries, however close together. */
  method TwoSplits(t0: real, t1: real, t2: real) returns (count: nat, second: real)
    ensures count == 2 && second == t2 - t1
  {
    var sw := new Stopwatch();
    sw.Start(t0);
    sw.Split(t1);
    sw.Split(t2);
    count, second := |sw.splits|, sw.splits[1].duration;
  }

  /**
   * After a resume the display runs ahead of the splits: run 0 to 10,
   * resume at 20, and at 25 the timer shows 25 while a split taken at that
   * instant records 15 (and the corrected reading is 15).
   */
  method ResumedDisplay() returns (shown: real, recorded: real, intended: real)
    ensures shown == 25.0 && recorded == 15.0 && intended == 15.0
  {
    var sw := new Stopwatch();
    sw.Start(0.0);
    sw.Stop(10.0);
    sw.Start(20.0);
    shown := sw.Display(25.0);
    intended := sw.ElapsedAt(25.0);
    sw.Split(25.0);
    recorded := Splits.LastCum(sw.splits);
  }
}
