# warp-curvature-analysis: the run and assemble stages in Dafny

warp-curvature-analysis is a pipeline of Python scripts. Two of them are modelled here:

- **`run_strong_curvature.py`** hands each convergence record to the curvature solver. It merges the solver's `max_R`, `peak_R2` and `violations` into the record with `{**entry, ...}`. It then writes the merged records twice:
  - as JSON lines;
  - as a text summary with one line per run, `run: k=v, ..., max_R: ..., peak_R2: ...`.
- **`assemble_visualization.py`** reads those merged records and derives an event list:
  - a `constraint_violation` at the time of the first `(t, val)` pair whose `val` is strictly above `1e-6`, if any;
  - then one `peak_R` event per run.

  It writes that single list twice: as JSON lines and as a `timeline:` text.

The model works on decoded JSON values (`Values.Value`). Dicts keep their insertion order.

Every Python exception the two cores can raise is an explicit error value (`Values.Result`):

- `AttributeError`: `.get` called on a non-dict.
- `TypeError`:
  - iterating `None`, a number or a boolean;
  - comparing a string, `None`, a list or a dict with the float threshold;
  - subscripting a non-dict with a string.
- `ValueError`: unpacking something that is not two items long.
- `KeyError`: a missing key.
- A failed solver run.

Each loop of `detect_events`, `to_am_timeline`, `to_asciimath` and the two `main` functions is modelled twice:

- as a Dafny method with the loop as written;
- as a function that specifies it.

The method's postcondition ties the two together. The lemmas then state what the scripts promise:

- **Event detection:**
  - the first pair strictly above the threshold wins, and later pairs are never looked at;
  - exactly one `peak_R` per run, and one `constraint_violation` per violating run;
  - detection distributes over concatenation of the run lists;
  - the first run that raises decides the exception.
- **Both outputs of a stage:** they come from the same list.
  - Record `i` is event `i`.
  - When every event's time and params render without a newline, timeline line `i + 1` renders event `i`.
- **The merge:**
  - it keeps the entry's keys in place and appends the missing solver keys in the order `max_R`, `peak_R2`, `violations`;
  - it overwrites only those three values.
- **The summary:**
  - it lists every item except `violations`;
  - it can never raise on merged records;
  - when the items an entry lists have keys and rendered values without a newline, the entry gets exactly one line.

Points of the code's behaviour worth knowing:

- There are only two kinds of event, `constraint_violation` and `peak_R`. No other classification of the records takes place.
- A violation given as a plain message string is not skipped. `solver.py` produces one for an unknown test type.
  - Most messages fail the `for t, val in ...` unpacking with `ValueError`.
  - A two-character message unpacks into two characters and then fails the comparison with `TypeError` (`AssembleVisualization.MessageViolationRaises`).
  - The `Error: ...` message that `solver.py` prints on an exception never reaches a merged record: solver.py exits with status 1 and `check=True` makes run_solver raise.
- An event's params are `run.get('parameters', {})`, so they are `{}` for a record without a `parameters` key.

## Model

| member | source | states |
|---|---|---|
| Values.Get | assemble_visualization.py:26 | `d.get(k)` finds a value exactly when k is a key, and the value found is stored under k |
| Values.Lookup | run_strong_curvature.py:36 | `d[k]` succeeds exactly when k is a key, agrees with `get`, and otherwise raises KeyError(k) |
| Values.Subscript | run_strong_curvature.py:48-50 | `diag[k]` on a dict is `d[k]` (the stored value, or KeyError(k) when k is absent); any non-dict raises TypeError |
| Values.Put | run_strong_curvature.py:46-51 | `{**d, k: v}` keeps the key order (a new key goes last), maps k to v, leaves every other key's value alone, and never duplicates a key |
| Values.Iterate | assemble_visualization.py:26 | iterating fails with TypeError exactly on None, numbers and booleans; a list yields its items, a string yields its one-character strings and a dict its keys, in order |
| Values.Unpack2 | assemble_visualization.py:26 | `t, val = x` succeeds exactly on two-item lists, strings and dicts, raising TypeError on non-iterables and ValueError otherwise |
| Values.GreaterThan | assemble_visualization.py:27 | `val > thresh` succeeds exactly for numbers and booleans, else TypeError; a number gives the strict comparison `n > thresh`, a boolean compares as 1.0 or 0.0 |
| Values.MapAllOk | run_strong_curvature.py:43-51 | an append loop completes exactly when no element raises, and then holds each element's result at its index |
| Values.MapAllFirstError | run_strong_curvature.py:43-51 | the loop's exception is the one of its first failing element |
| Text.SplitJoin | assemble_visualization.py:46 | splitting a newline-joined text gives back the lines when no line contains a newline |
| Text.JoinStartsWithFirst | assemble_visualization.py:46 | a joined text begins with its first part |
| Text.JoinAvoids | run_strong_curvature.py:35-37 | a character in no part and not in the separator is not in the join |
| AssembleVisualization.FirstViolationFiresAt | assemble_visualization.py:26-33 | after quiet pairs, the first pair strictly above the threshold gives its time, whatever follows |
| AssembleVisualization.FirstViolationFailsAt | assemble_visualization.py:26-27 | after quiet pairs, the first element that does not unpack or compare raises that exception, whatever follows |
| AssembleVisualization.FirstViolationNone | assemble_visualization.py:26-33 | no violation is found exactly when every element is a pair whose value is not above the threshold |
| AssembleVisualization.FirstViolationPrefix | assemble_visualization.py:26-33 | once the scan breaks or raises, later elements are never examined |
| AssembleVisualization.ThresholdIsStrict | assemble_visualization.py:27 | a pair is quiet exactly when its value is at most the threshold and fires exactly when it is above it; with FirstViolationFiresAt and FirstViolationNone this holds at any position |
| AssembleVisualization.RunEvents | assemble_visualization.py:24-39 | a run's block: AttributeError for a non-dict, else the scan's exception, else an optional violation at the found time followed by the peak_R event with `time_of_max_R` and the run's params |
| AssembleVisualization.MissingFieldDefaults | assemble_visualization.py:26-38 | missing violations give only a peak_R event, missing parameters give `{}`, missing time_of_max_R gives None |
| AssembleVisualization.DetectEvents | assemble_visualization.py:22-40 | the nested loop computes the concatenation of the runs' blocks or the first run's exception |
| AssembleVisualization.AppendRunEvents | assemble_visualization.py:25-39 | one outer-loop pass (inner loop with break, then peak_R) appends exactly the run's block or raises its exception |
| AssembleVisualization.DetectSnoc | assemble_visualization.py:24-39 | one more run appends its block, or raises its exception if the earlier runs raised none |
| AssembleVisualization.DetectStopsAt | assemble_visualization.py:24 | detection raises the exception of the first run that raises |
| AssembleVisualization.DetectAppend | assemble_visualization.py:22-40 | detection on two run lists concatenated is the concatenation of the detections |
| AssembleVisualization.DetectOne | assemble_visualization.py:22-40 | a single run gives exactly its own block |
| AssembleVisualization.BlockCounts | assemble_visualization.py:26-39 | a block holds one peak_R and at most one violation, one exactly when the run violates |
| AssembleVisualization.EventCounts | assemble_visualization.py:22-40 | n runs give n peak_R events and one violation per violating run, and nothing else |
| AssembleVisualization.EventCountBounds | assemble_visualization.py:22-40 | n runs give between n and 2n events |
| AssembleVisualization.TimelineLines | assemble_visualization.py:42-45 | the header `timeline:` then one rendered line per event, in order |
| AssembleVisualization.ToAmTimeline | assemble_visualization.py:42-46 | the append loop and join produce the timeline text |
| AssembleVisualization.TimelineShape | assemble_visualization.py:42-46 | the text starts with `timeline:` and, when every event's time and params render without a newline, splits back into exactly the header and one line per event |
| AssembleVisualization.AssembleOutputs | assemble_visualization.py:48-60 | main writes one record per detected event and the timeline of that same list, or raises detection's exception |
| AssembleVisualization.OutputsAgree | assemble_visualization.py:52-60 | record i is event i; when the events render on one line each, the timeline has one line more than there are records and line i + 1 renders event i |
| AssembleVisualization.MinkowskiExample | assemble_visualization.py:22-40 | a run with no violations and no parameters gives one peak_R at None with params `{}` |
| AssembleVisualization.PairAboveThresholdExample | assemble_visualization.py:26-33 | a pair `[1.0, 0.001]` gives a violation at 1.0 before the peak |
| AssembleVisualization.MessageViolationRaises | assemble_visualization.py:26-27 | a run whose first violation is a message string raises ValueError, or TypeError when the message has exactly two characters |
| RunStrongCurvature.WithSolverValuesKeys | run_strong_curvature.py:46-51 | the merged dict keeps the entry's keys in place and appends whichever of max_R, peak_R2, violations are missing, in that order |
| RunStrongCurvature.PutMissing | run_strong_curvature.py:46-51 | each write appends its key only when missing and does not change whether another key is present |
| RunStrongCurvature.WithSolverValuesGet | run_strong_curvature.py:46-51 | the three solver keys hold the solver's values and every other key keeps the entry's value |
| RunStrongCurvature.WithSolverValuesDistinct | run_strong_curvature.py:46-51 | the merged dict never holds a key twice |
| RunStrongCurvature.MergeEntryShape | run_strong_curvature.py:45-51 | a merged record comes from a dict entry, a successful solver run on `entry.get('parameters', entry)`, and the solver's three values |
| RunStrongCurvature.MergeEntryFails | run_strong_curvature.py:45-50 | the merge raises exactly when the entry is not a dict (AttributeError), the solver fails, or the solver output lacks one of the three keys |
| RunStrongCurvature.MergeOnePerEntry | run_strong_curvature.py:43-51 | one merged record per entry in entry order, and the loop raises exactly when some entry's merge raises |
| RunStrongCurvature.MergeRuns | run_strong_curvature.py:43-51 | the merge loop computes the merged records or the first entry's exception |
| RunStrongCurvature.ReportedFields | run_strong_curvature.py:35 | the listed items are exactly the items whose key is not violations |
| RunStrongCurvature.ReportedFieldsAppend | run_strong_curvature.py:35 | the listed items keep the dict's order |
| RunStrongCurvature.ReportedFieldsGet | run_strong_curvature.py:35 | leaving out violations changes no other key's value |
| RunStrongCurvature.ReportedFieldsOmitViolations | run_strong_curvature.py:35 | violations is never listed |
| RunStrongCurvature.SpecItemListed | run_strong_curvature.py:35 | every non-violations item appears as `k=v` |
| RunStrongCurvature.SummaryLine | run_strong_curvature.py:35-36 | a line is produced exactly when max_R and peak_R2 are present; max_R's KeyError comes first |
| RunStrongCurvature.SummaryLineShape | run_strong_curvature.py:36 | a line is `run: `, the joined items, then `, max_R: ..., peak_R2: ...` |
| RunStrongCurvature.ToAsciiMath | run_strong_curvature.py:32-37 | the loop and join compute the summary or the first entry's KeyError |
| RunStrongCurvature.SummaryFails | run_strong_curvature.py:32-37 | the summary raises exactly when some entry lacks max_R or peak_R2; no entries give the empty text |
| RunStrongCurvature.ShownValueOneLine | run_strong_curvature.py:36 | a value looked up in a dict whose items render on one line renders on one line |
| RunStrongCurvature.SummaryLineAvoidsNewline | run_strong_curvature.py:35-36 | when the listed items (all but violations) have keys and rendered values without a newline, the line contains none |
| RunStrongCurvature.SummaryLineCount | run_strong_curvature.py:32-37 | when each entry's listed items have keys and rendered values without a newline, n >= 1 entries give exactly n lines, line i summarising entry i; no entries give one empty line |
| RunStrongCurvature.WriteRecords | run_strong_curvature.py:53-55 | the write loop yields one record per merged dict, record i being dict i |
| RunStrongCurvature.RunAndSummarize | run_strong_curvature.py:39-59 | main merges, writes one record per merged entry and the summary, or raises the first exception |
| RunStrongCurvature.RunStageFailsOnlyInMerge | run_strong_curvature.py:43-59 | the stage fails exactly when the merge does, since merged records always have max_R and peak_R2, and then writes one record per entry |
| RunStrongCurvature.MergedLineListsExtremes | run_strong_curvature.py:35-36 | a merged record's listed items hold max_R and peak_R2 with the solver's values and never violations |
| Values.GetOr | assemble_visualization.py:26-38 | defines `d.get(k, default)` from Get; used for every `run.get` |
| Values.MapAll | run_strong_curvature.py:43-51 | defines an append loop whose body may raise; its result has one item per element (MapAllOk, MapAllFirstError) |
| Values.Concat | assemble_visualization.py:23-40 | defines appending the runs' blocks one after another to one list |
| Text.Join | assemble_visualization.py:46 | defines `sep.join(parts)`; SplitJoin inverts it |
| Text.Split | assemble_visualization.py:46 | defines `s.split(c)`, the reading side of the newline-joined texts; it always yields at least one piece |
| AssembleVisualization.FirstViolation | assemble_visualization.py:26-33 | defines the inner loop with its break; characterised by FirstViolationFiresAt, FailsAt, None and Prefix |
| AssembleVisualization.ViolationScan | assemble_visualization.py:26 | defines the scan over `run.get('violations', [])` |
| AssembleVisualization.Params | assemble_visualization.py:31-38 | defines `run.get('parameters', {})` (MissingFieldDefaults) |
| AssembleVisualization.Detect | assemble_visualization.py:22-40 | defines detect_events; specifies DetectEvents and is characterised by DetectSnoc, DetectAppend, DetectStopsAt, EventCounts |
| AssembleVisualization.TimelineLine | assemble_visualization.py:45 | defines one timeline line `- at t=<time>: <event> for params <params>` |
| AssembleVisualization.Timeline | assemble_visualization.py:42-46 | defines to_am_timeline's text; specifies ToAmTimeline and is characterised by TimelineShape |
| AssembleVisualization.EventRecord | assemble_visualization.py:28-39 | defines an event as the dict `{'event', 'time', 'params'}` that main dumps |
| AssembleVisualization.Assemble | assemble_visualization.py:48-60 | defines main's two outputs; specifies AssembleOutputs and is characterised by OutputsAgree |
| RunStrongCurvature.RunSolver | run_strong_curvature.py:23-30 | defines run_solver as the solver parameter, a failure raising SolverError |
| RunStrongCurvature.SolverInput | run_strong_curvature.py:45 | defines `entry.get('parameters', entry)` |
| RunStrongCurvature.WithSolverValues | run_strong_curvature.py:46-51 | defines the `{**entry, ...}` merge; characterised by WithSolverValuesKeys, Get and Distinct |
| RunStrongCurvature.MergeEntry | run_strong_curvature.py:45-51 | defines one pass of the merge loop; characterised by MergeEntryShape and MergeEntryFails |
| RunStrongCurvature.Merge | run_strong_curvature.py:43-51 | defines the merge loop; specifies MergeRuns and is characterised by MergeOnePerEntry |
| RunStrongCurvature.SpecItems | run_strong_curvature.py:35 | defines the `k=v` items of a line (SpecItemListed) |
| RunStrongCurvature.Summary | run_strong_curvature.py:32-37 | defines to_asciimath; specifies ToAsciiMath and is characterised by SummaryFails and SummaryLineCount |
| RunStrongCurvature.RunStage | run_strong_curvature.py:39-59 | defines main's two outputs; specifies RunAndSummarize and is characterised by RunStageFailsOnlyInMerge |

## Left out

- Solver numerics (`solver.py`): the solver is a function parameter returning a decoded value or a failure. solver.py is not part of this model.
- run_solver's subprocess, its `check=True` failure and `json.loads` of its output: all are folded into one `SolverError`.
- Argument parsing, file reading and writing, and the unused `--input-am` inputs: these are I/O. Each input line is taken as already decoded by `json.loads`.
- `json.dumps` of a record: it is left abstract. A written record is the dict value itself.
- Python's `str()` and f-string rendering of values: this is the parameter `show`, about which nothing is assumed.
- Floating point: numbers are reals. NaN and the infinities are not modelled. JSON's `1` and `1.0`, and `0.0` and `-0.0`, become one value, so neither `show` nor the written records can tell them apart.
- Duplicate keys in a JSON object: a decoded dict is assumed to hold each key once (`Values.DistinctKeys`).
- Partially written files when a stage raises after writing its JSON file: both stages model an exception as no output. Neither stage's rendering step can raise once its first step has succeeded (`RunStrongCurvature.RunStageFailsOnlyInMerge`).
- `detect_events`'s threshold argument: the model keeps it as a parameter, but main always passes the default `1e-6`.
- TimelineShape: the line-by-line split is stated only when every event's time and params render without a newline. A rendering that contains one, such as the `str()` of a string value holding a newline, splits that event's line, and the model says nothing about the line count then.
- OutputsAgree: the line-by-line agreement is stated under the same per-event condition as TimelineShape; the record-by-record agreement holds unconditionally.
- SummaryLineCount: the line count is stated only when the listed items of every entry (all but violations) have keys and rendered values without a newline. No entries give one empty line.
