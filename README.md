# Stopwatch with splits, in Dafny

A model of `stopwatch.py`, a single-page stopwatch for timing a sequence of
performance segments. The stopwatch keeps its state in the session: whether it is
running, a start instant, the elapsed time frozen at the last stop, the list of
recorded splits (each a `(split_duration, cum_time)` pair) and the set of
split indices ticked for summing. Three buttons change that state. Start/Stop starts or
resumes while stopped. While running, it stops and records a final split
only when that split is longer than 0.01 s. Split always records, and
Clear resets. Two readings are derived from it: the big
timer display and the total of the ticked splits. Durations are shown by
`format_time` as `MM:SS.CC` or `HH:MM:SS.CC`, truncated rather than rounded.

The model has four modules:

- `TimeFormat` (`format.dfy`): `format_time` as pure functions. `Decompose`
  yields the four fields. `Render` and `FormatTime` turn them into text. `ParseClock` reads a
  rendered string back, so the formatter has an inverse to be checked against.
- `Splits` (`splits.dfy`): the split list as a value. It defines the last
  cumulative, the chain condition (each cumulative is the previous one plus
  the split's own duration) and the sum over selected indices. The lemmas
  about them are here.
- `StopwatchEngine` (`engine.dfy`): the session state as the class `Stopwatch`.
  Its fields are updated in place by `Start`, `Stop`, `Split`, `Clear` and
  `ApplyCheckboxes`. `Display` and `SelectedTotal` read the state. Short
  client methods run the engine through fixed command sequences.
- `Optional` (`optional.dfy`): the `Option` datatype.

Times are exact `real`s, so the debounce threshold 0.01 is exactly 1/100.
The clock `time.time()` becomes a parameter `now` of every command. The
commands accept any reading, as the program does. Facts that hold only while
the clock never goes back are stated through `Stopwatch.CoherentAt(t)`. This
predicate says the state could come from a clock that has reached `t`. Every
command keeps it (`old(CoherentAt(now)) ==> CoherentAt(now)`). It carries over
to any later reading (`CoherentLater`).

Points of the program's behaviour that the model keeps as they are:

- A split or a stop records `now - start_time`. The running display adds
  `elapsed` on top of that (stopwatch.py:28). See Findings.
- Start, Stop and Split require the state in which their button is offered.
  The Start/Stop button branches on `running` (stopwatch.py:35, 39), and
  Split is disabled while stopped (stopwatch.py:52).
- The selection is session state, and Clear empties it (stopwatch.py:66).
- The program does not keep a split's duration non-negative. `Split`
  records whatever `now - start_time - last_cum` is. Durations are proved
  non-negative only under `CoherentAt`.

## Model

| member | source | states |
|---|---|---|
| `TimeFormat.Decompose` | stopwatch.py:8-12 | minutes and seconds lie in 0..59 and hundredths in 0..99; `hours*3600 + minutes*60 + secs` is the whole seconds; `hundredths/100 <= s - floor(s) < (hundredths+1)/100`, so the fraction is truncated and never rounded up; hours are non-zero exactly when `s >= 3600` |
| `TimeFormat.Render` | stopwatch.py:13-15 | the text is at least 8 characters long, and exactly 8 (`MM:SS.CC`) exactly when the hours field is 0 |
| `TimeFormat.RenderRoundTrip` | stopwatch.py:13-15 | reading the rendered text back gives exactly the hours, minutes, seconds and hundredths it was rendered from. The reader accepts only two-digit fields and an hours field written as `{hours:02d}` writes it: at least two digits, no leading zero beyond two digits, value above 0. So the text of each clock is fixed |
| `TimeFormat.FormatTime` | stopwatch.py:6-15 | the text is at least 8 characters long, and exactly 8 (`MM:SS.CC`, no hours field) exactly when the duration is under an hour; with FormatTimeRoundTrip, the text is the canonical rendering of the decomposed fields |
| `TimeFormat.Pad2` | stopwatch.py:14-15 | `{n:02d}`: only digits, denoting `n`, at least two of them, exactly two below 100, and no leading zero from 100 up |
| `TimeFormat.Decimal` | stopwatch.py:14-15 | the decimal digits of `n`, non-empty, which read back as `n`; one digit below 10, two from 10 to 99; no leading zero when `n > 0` |
| `TimeFormat.FormatTimeRoundTrip` | stopwatch.py:13-15 | reading the formatted text back gives exactly the decomposed hours, minutes, seconds and hundredths |
| `TimeFormat.FormatTimeInjectiveOnFields` | stopwatch.py:6-15 | two durations that format to the same text have the same four fields |
| `TimeFormat.FormatTimeExamples` | stopwatch.py:6-15 | 0 shows `00:00.00`, 65.4 shows `01:05.40`, 3661.5 shows `01:01:01.50`, and 59.999 shows `00:59.99`, not `01:00.00` |
| `Splits.LastCum` | stopwatch.py:43 | `splits[-1][1] if splits else 0`: the cumulative a new split is measured from, the same one that ChainedAt uses as each entry's predecessor, and 0 on an empty list. For a chained list it equals the sum of all durations (CumulativeIsRunningSum) |
| `Splits.SumSelected` | stopwatch.py:85 | the sum of the durations at the selected indices. Indices that name no split are skipped, so a selection with no index in range totals 0. The total is non-negative when no duration is. SumSelectedNone, SumSelectedAdd and SumSelectedIgnoresOutOfRange characterise it |
| `Splits.AppendSplit` | stopwatch.py:43-57 | appending `(cum - last_cum, cum)` keeps every cumulative equal to its predecessor's plus its own duration, makes `cum` the last cumulative, leaves the earlier entries unchanged, and adds no negative duration when `cum >= last_cum` |
| `Splits.ChainedAt` | stopwatch.py:43-57 | in a chained list, entry `i`'s cumulative is entry `i-1`'s (or 0 for the first) plus its duration |
| `Splits.CumulativeIsRunningSum` | stopwatch.py:43-57 | the last cumulative equals the sum of all recorded durations |
| `Splits.CumulativeIsPrefixSum` | stopwatch.py:43-57 | every entry's cumulative equals the sum of the durations up to and including it |
| `Splits.CumulativesNondecreasing` | stopwatch.py:42-57 | with no negative durations, cumulatives are non-negative and non-decreasing along the list |
| `Splits.SumSelectedIgnoresOutOfRange` | stopwatch.py:85 | the selected total depends only on the selected indices that name a split |
| `Splits.SumSelectedNone` | stopwatch.py:72 | an empty selection totals 0 |
| `Splits.SumSelectedAdd` | stopwatch.py:78-85 | ticking a split that was not selected adds exactly its duration to the total |
| `Splits.SumSelectedAll` | stopwatch.py:85 | ticking every split totals the sum of all durations |
| `Splits.SumSelectedBounded` | stopwatch.py:85 | with no negative durations, any selection totals between 0 and the sum of all durations |
| `Splits.SumSelectedExample` | stopwatch.py:85 | durations 1, 2 and 3 with the first and third ticked total 4 |
| `StopwatchEngine.Stopwatch.constructor` | stopwatch.py:18-23 | the first run starts stopped, with start and elapsed at 0 and no splits or selection; this state is coherent with every clock reading |
| `StopwatchEngine.Stopwatch.ElapsedAt` | stopwatch.py:42 | the elapsed time that a split or stop records at the same reading; under a coherent state it is at least the last cumulative, which is at least 0 |
| `StopwatchEngine.Stopwatch.Display` | stopwatch.py:28 | the timer shows the recorded elapsed time plus, while running, `elapsed` a second time; under a coherent state it is never behind the last split and never negative |
| `StopwatchEngine.Stopwatch.Start` | stopwatch.py:35-38 | running, with `start_time = now - elapsed`, so the elapsed time at `now` is exactly the frozen one: resuming neither loses nor adds time; splits, elapsed and selection unchanged; coherence kept |
| `StopwatchEngine.Stopwatch.Stop` | stopwatch.py:40-48 | stopped, with `elapsed` equal to the elapsed time at `now`; one split `(cum - last_cum, cum)` is appended exactly when it is longer than 0.01 s, else none, and earlier splits are unchanged; the last cumulative is at least `elapsed - 0.01`, and at most `elapsed` under coherence |
| `StopwatchEngine.Stopwatch.Split` | stopwatch.py:53-57 | exactly one split `(cum - last_cum, cum)` is appended however short, and its cumulative is the elapsed time at `now`; running, start, elapsed, selection and earlier splits unchanged; coherence (so a non-negative duration) kept |
| `StopwatchEngine.Stopwatch.Clear` | stopwatch.py:61-66 | from any state: stopped, start and elapsed 0, no splits, empty selection, coherent with every clock reading |
| `StopwatchEngine.Stopwatch.ApplyCheckboxes` | stopwatch.py:73-80 | after the checkbox loop the selection is exactly the indices whose checkbox is ticked, all of them naming a split; nothing else changes |
| `StopwatchEngine.Stopwatch.SelectedTotal` | stopwatch.py:84-88 | no total (the hint is shown instead) exactly when nothing is selected; otherwise exactly `SumSelected` of the splits and the selection, the durations at the selected indices added up, which lies between 0 and the last cumulative when no duration is negative |
| `StopwatchEngine.CoherentLater` | stopwatch.py:37-57 | a state coherent with one clock reading stays coherent with any later one |
| `StopwatchEngine.PauseResume` | stopwatch.py:35-48 | running from t0 to t1 and from t2 to t3 leaves exactly `(t1-t0) + (t3-t2)` in `elapsed`; the last split lies at most 0.01 below it, and not above it when the readings increase |
| `StopwatchEngine.SplitThenStop` | stopwatch.py:40-57 | start, split at t1, stop at t2 records two splits when `t2 - t1 > 0.01` and one otherwise |
| `StopwatchEngine.TwoSplits` | stopwatch.py:52-57 | two splits record two entries whatever the gap, the second of length `t2 - t1` |
| `StopwatchEngine.ResumedDisplay` | stopwatch.py:28 | run 0 to 10, resume at 20: at 25 the display shows 25, while a split at 25 records 15, which is also the elapsed time |

## Findings

| source | as written | input that shows it | evidently intended | confidence | as-written member | corrected member |
|---|---|---|---|---|---|---|
| stopwatch.py:28 | while running, shows `(now - start_time) + elapsed`, but a resume already sets `start_time = now - elapsed` (stopwatch.py:37), so `elapsed` is counted twice | start at 0, stop at 10, resume at 20, read at 25: display 25; a split at 25 records 15 and a stop at 25 would freeze 15, so the timer jumps back | show `now - start_time` while running, the value the splits and stop record | high (not executed) | `StopwatchEngine.Stopwatch.Display`, shown by `StopwatchEngine.ResumedDisplay` | `StopwatchEngine.Stopwatch.ElapsedAt`, which `Start`, `Stop` and `Split` are proved against |

## Left out

- All page presentation is not modelled: the title, HTML markup, columns, button and checkbox widgets, and the success and info messages. The same goes for the split list's text layout (stopwatch.py:82).
- The refresh loop (`time.sleep(0.1)` and `st.rerun()`, stopwatch.py:90-93) and the rerun after each button are not modelled. They schedule rendering and change no state.
- `time.time()` is not modelled. Each command takes the reading as a parameter `now`.
- The session-state initialisation guard (`if 'running' not in st.session_state`) is modelled only as the constructor. Re-running the script against existing state is the host's business.
- `TimeFormat.FormatTime`: exact reals, so IEEE-754 artefacts are not reproduced. An example is `(x - int(x)) * 100` landing just below an integer. Neither is `timedelta`'s rounding to microseconds (stopwatch.py:7-8).
- `TimeFormat.FormatTime`: requires a non-negative duration. On a negative one, Python's `int()` truncates toward zero and `//` and `%` floor, which is not modelled.
- `TimeFormat.FormatTime`: `timedelta(seconds=seconds)` (stopwatch.py:7) raises `OverflowError` once the duration passes timedelta's limit of 999999999 days. The model has no error path and returns a string for every non-negative real. No stopwatch reading comes near that limit.
- `StopwatchEngine.Stopwatch.Stop` and `StopwatchEngine.Stopwatch.SelectedTotal`: the engine's arithmetic is exact, so float effects are not reproduced. One is the float difference `cum - last_cum` compared with 0.01 (stopwatch.py:45). It can land a hair above or below the threshold. The other is the float sum of the selected durations, taken in the set's iteration order (stopwatch.py:85). It can depend on that order and round differently.
- `StopwatchEngine.Stopwatch.SelectedTotal`: an index outside the split list would make the program raise. The model's sum skips it instead. `Valid()` rules such indices out, so this never arises.
- Which split checkboxes are ticked is user input. It is a parameter of `ApplyCheckboxes`.
