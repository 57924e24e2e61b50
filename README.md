# LongCast Pro — a verified model of the application core

LongCast Pro is a browser application for surfcasting practice. Every cast is logged with its distance and its conditions: lead weight, technique, rod, reel, line, wind, temperature, humidity and location. Casts are entered one by one inside a *training session*. When the session ends, they are flattened into a single history. A dashboard shows the mean, the record, the count and a 30-day improvement. A chart plots the history by date. A history view filters and sorts the casts. A profile page shows a body-mass index.

This project models the class `LongCastApp` of `app.js` in Dafny and proves its behaviour:

- **State.** The four fields the class updates in place are the fields of a Dafny class, `App.LongCastApp`:
  - `casts`, the history;
  - `profile`;
  - `currentSession`, at most one active session with its list of casts `lanci`;
  - `suggestions`, the per-field lists of values entered before.
- **Operations that change this state.** These are methods of the class with `modifies` clauses:
  - starting a session, adding a cast to it, deleting a cast from it and ending it;
  - recording a suggestion;
  - deleting a cast from the history;
  - importing a backup;
  - clearing all data.
- **Pure computations.** These are functions with lemmas about them:
  - the dashboard statistics and the improvement percentage;
  - the history filter and sort;
  - the chart's coordinate and label arithmetic;
  - the BMI ladder.

The model follows the code of `app.js`. Here the history is the flat `casts` list. The improvement compares casts before and after a cutoff 30 days back. An import replaces only the history and the profile.

Things the code takes from its environment are explicit parameters of the model:

- the clock (`now`, `orario`);
- the generated ids (`Date.now()` for a session, `Date.now() + Math.random()` for a history entry);
- the answers to `confirm()`;
- the values read from forms;
- the canvas width.

Other modelling choices:

- **Times.** Times are integers, in milliseconds since the epoch.
- **Distances.** Distances are mathematical reals.
- **Empty or unparsable optional numbers.** Where the code stores `null` or gets `NaN`, the model uses `None`.
- **Text.** JavaScript's `trim` is modelled over the ECMAScript white-space and line-terminator characters.

Modules:

| module | file | contents |
|---|---|---|
| `Options` | options.dfy | `Option` |
| `Text` | text.dfy | `trim` |
| `Seqs` | seqs.dfy | `filter`, `splice(i, 1)`, sum/max/min/mean |
| `Records` | records.dfy | the cast, session and profile records and how a session is flattened |
| `Suggestions` | suggestions.dfy | addSuggestion |
| `History` | history.dfy | deleteCast, filterHistory and the stable sort |
| `Stats` | stats.dfy | updateDashboard, updateStats, calculateImprovement |
| `Chart` | chart.dfy | updateChart |
| `Bmi` | bmi.dfy | calculateBMI |
| `App` | app.dfy | the class and its state-changing methods |

## Model

| member | source | states |
|---|---|---|
| `Text.Trim` | app.js:76-78 | `trim` removes exactly the leading and trailing white space: the result is a contiguous slice of the input, everything cut on either side is white space, and the result neither starts nor ends with white space |
| `Text.TrimBlankIffAllSpace` | app.js:76 | `value.trim() === ''` holds exactly when the value consists of white space only |
| `Text.TrimIdempotent` | app.js:78 | trimming an already trimmed value changes nothing |
| `Text.TrimPadded` | app.js:76-78 | a value with non-blank ends, with any white space before it and any after it (either side possibly empty), trims back to itself |
| `Suggestions.Added` | app.js:75-84 | a missing, empty or blank value leaves the list as it is; a value whose trimmed form is present leaves it as it is; otherwise the trimmed value is appended at the end; existing entries keep their positions; membership is exactly old entries plus the trimmed value; a duplicate-free list of trimmed non-blank values stays so |
| `Suggestions.AddedIdempotent` | app.js:75-84 | recording the same value twice has the effect of recording it once |
| `Suggestions.AddedIgnoresPadding` | app.js:76-80 | a stored value typed again with white space before and after it, the two sides independent (a trailing space only, say), adds nothing |
| `Suggestions.Suggest` | app.js:75-84 | only the list of the given category changes, as `Added` says, and the validity of the whole index is preserved |
| `Suggestions.EmptyIndex` | app.js:8-14 | the initial index has five empty lists and is valid |
| `Seqs.Filter` | app.js:505 | `filter` keeps exactly the elements satisfying the predicate and adds none (sub-multiset, never longer) |
| `Seqs.FilterIsSubsequence` | app.js:505 | `filter` keeps its survivors in their original order |
| `Seqs.FilterPartition` | app.js:563-564 | filtering by a predicate and by its negation splits a list: multisets and lengths add up to the original |
| `Seqs.SpliceOne` | app.js:437 | `splice(index, 1)` removes the single element at the start position (negative index counted from the end, clamped), shifting the later ones down, or changes nothing when that position is past the end |
| `Seqs.Max` | app.js:545 | `Math.max` of a non-empty list is one of its elements and no element exceeds it |
| `Seqs.Min` | app.js:603 | `Math.min` of a non-empty list is one of its elements and exceeds none |
| `Seqs.SumBounds` | app.js:541 | if every element lies in `[lo, hi]`, the sum lies in `[n*lo, n*hi]` |
| `Seqs.MeanBetweenMinAndMax` | app.js:541 | sum over count lies between the minimum and the maximum |
| `Records.NewSession` | app.js:231-248 | a new session has the given id and no casts |
| `Records.SessionEntries` | app.js:462-484 | flattening gives one history entry per session cast, in session order, each built from that cast, the session and its id |
| `Records.SessionEntriesCarrySession` | app.js:463-481 | each flattened entry has its cast's distance, time and note, its fresh id, and the session's equipment, weather, location and id as `sessionId` |
| `Records.SessionEntriesSnoc` | app.js:462-484 | one more session cast gives exactly one more entry at the end |
| `History.Sort` | app.js:760-774 | the sort returns a permutation of its input, ordered by the comparator's key |
| `History.SortUnsortedKeepsOrder` | app.js:771-772 | with the fall-through comparator (always 0) the list keeps its order |
| `History.DeleteById` | app.js:505 | deleteCast keeps exactly the casts whose id differs, in order, and the removed ones are exactly those with that id |
| `History.FilterHistory` | app.js:740-776 | the displayed list has the same multiset as filtering the history once by both conditions, so every kept cast appears with all its copies; it holds exactly the casts passing the technique and period filters (only the chosen technique when one is chosen), and is ordered by date or distance, ascending or descending, as selected |
| `History.FiltersCompose` | app.js:745-757 | the technique filter followed by the period filter gives the same list as one filter by both conditions, in each of the four combinations of active filters |
| `Seqs.FilterFilter` | app.js:748-757 | filtering twice is filtering once by the conjunction |
| `Seqs.FilterAgree` | app.js:745-757 | filters that agree on the list's elements give the same list |
| `Seqs.FilterKeepsAll` | app.js:745 | a filter that every element passes keeps the whole list, as when neither filter is active |
| `Stats.Distances` | app.js:538 | one distance per cast, in order |
| `Stats.CalculateImprovement` | app.js:559-574 | `null` exactly when the recent or the older side of the cutoff is empty; otherwise non-finite exactly when the older mean is 0, and else a percentage that, times the older mean, is a hundred times the change of the mean distance |
| `Stats.ImprovementOf` | app.js:566-573 | the same comparison for two given groups of casts: `null` when either is empty, non-finite exactly for an older mean of 0, otherwise the percentage change of the means |
| `Stats.PercentChange` | app.js:573 | `((recentAvg - olderAvg) / olderAvg) * 100` times `olderAvg` is a hundred times `recentAvg - olderAvg` |
| `Stats.ImprovementSidesPartition` | app.js:561-564 | the recent (`>= cutoff`) and older (`< cutoff`) casts partition the history |
| `Stats.ImprovementSign` | app.js:570-573 | with both sides non-empty and a positive older mean, the result is a percentage positive, negative or zero exactly as the recent mean is above, below or equal to the older one |
| `Stats.UpdateStats` | app.js:537-557 | the total is the number of casts; the mean is sum over count and lies between the shortest and longest distance; the record is the distance of some cast and no cast went further; the improvement is the 30-day one |
| `Stats.RecordIsLongest` | app.js:545 | `Math.max(...distanze)` is the distance of some cast and no cast exceeds it |
| `Stats.UpdateDashboard` | app.js:514-523 | the empty dashboard is shown exactly when the history is empty |
| `Chart.Range` | app.js:604 | the range (`max - min`, or 1 when that is 0) is never 0, and it is positive whenever max is at least min |
| `Chart.Gaps` | app.js:634 | the x divisor (`n - 1`, or 1 when that is 0) is never 0, and it is positive for at least one point |
| `Chart.PointXEnds` | app.js:634 | the first point is at `padding`, and with more than one point the last is at `padding + chartWidth` |
| `Chart.PointXEvenlySpaced` | app.js:634 | consecutive points are `chartWidth` over the x divisor apart |
| `Chart.PointXIncreasing` | app.js:634 | on a chart of positive width the points run left to right |
| `Chart.PointYBounds` | app.js:635 | every distance between min and max is drawn between `padding` and `padding + chartHeight` |
| `Chart.PointYExtremes` | app.js:635 | the minimum is on the bottom line, and the maximum on the top line when the distances differ |
| `Chart.PointYInverted` | app.js:635 | a larger distance gives a smaller or equal y (strictly smaller for a strictly larger distance) |
| `Chart.GridMatchesPoints` | app.js:613-635 | when the distances differ, the value printed beside each grid line is the distance plotted at that height |
| `Chart.FlatSeriesOnBottomLine` | app.js:602-635 | when all distances are equal, the points lie on the bottom grid line, which is labelled `max - 1`, while the top line carries the distance |
| `Chart.DrawGrid` | app.js:613-626 | six grid lines from `padding` to `padding + chartHeight`, evenly spaced, labelled from the maximum down to `max - range` |
| `Chart.ProjectPoints` | app.js:633-660 | one point per cast, at the x and y formulas, every y inside the plot area, larger distances higher |
| `Chart.LabelInterval` | app.js:665 | `Math.ceil(n / 10)` is at least 1 and is the least `k` with `n <= 10 * k` |
| `Chart.SelectLabels` | app.js:665-677 | exactly the indices with `i % ceil(n/10) == 0` or `i == n - 1` are labelled, in increasing order; the last index always is; up to ten points all are; there are never more than eleven labels |
| `Chart.ElevenLabelsForHundredPoints` | app.js:664-671 | eleven labels do occur (100 points), one more than the comment's "max 10 labels" |
| `Chart.UpdateChart` | app.js:576-678 | nothing is drawn exactly when the history is empty; otherwise the casts are drawn in date order (a permutation of the history), with the six grid lines at the heights and values of the grid loop, one point per cast inside the plot area, and labels on exactly the indices of the label rule, increasing, at most eleven, the last cast labelled |
| `Bmi.Classify` | app.js:841-844 | the four bands are the half-open intervals below 18.5, [18.5, 25), [25, 30) and 30 upwards |
| `Bmi.ClassifyMonotone` | app.js:841-844 | a larger index never falls in a lighter band |
| `Bmi.Index` | app.js:838 | the index times the square of the height in metres gives back the weight |
| `Bmi.IndexMonotoneInWeight` | app.js:838 | for one height, a heavier weight gives a larger or equal index |
| `Bmi.IndexPositive` | app.js:838 | a positive weight gives a positive index |
| `Bmi.CalculateBmi` | app.js:833-850 | a reading is shown exactly when both fields are numbers other than 0; it is the index of those numbers with its band |
| `App.Export` | app.js:854-858 | the backup holds the whole history and the profile |
| `App.ImportedCasts` | app.js:881 | the history is replaced when the backup has one (even an empty one) and kept otherwise |
| `App.ImportedProfile` | app.js:882 | the profile is replaced when the backup has one and kept otherwise |
| `App.ExportImportRoundTrip` | app.js:853-882 | importing an export restores the exported history; the profile comes back too unless it was `null`, in which case the current one stays |
| `App.WithCast` | app.js:350-368 | the session after addCastToSession has exactly one more cast at the end of `lanci`, its four weather fields overwritten, and every other field unchanged |
| `App.SessionSuggestions` | app.js:251-255 | startSession records each of the five form values in its own list, keeping the index valid |
| `App.WeatherSuggestions` | app.js:358-359 | addCastToSession records the two wind values and leaves the other lists alone, keeping the index valid |
| `App.AppendSessionCasts` | app.js:462-484 | the loop of endSession appends exactly the flattened session casts after the existing history |
| `App.LongCastApp.constructor` | app.js:3-16 | empty history, no profile, no session, an empty valid suggestion index |
| `App.LongCastApp.AddSuggestion` | app.js:75-84 | only the suggestion index changes, as `Suggest` says, and it stays valid |
| `App.LongCastApp.StartSession` | app.js:222-264 | the current session becomes a new one with the given id, no casts, and the form values (replacing any active one); the five values are recorded as suggestions; history and profile unchanged |
| `App.LongCastApp.AddCastToSession` | app.js:339-368 | without a session nothing changes; otherwise exactly one cast is appended to the session, its weather overwritten and the wind values recorded; history and profile unchanged |
| `App.LongCastApp.DeleteSessionCast` | app.js:433-442 | when a session is active and the deletion confirmed, the session's `lanci` become `splice(index, 1)` of the old ones; otherwise nothing changes |
| `App.LongCastApp.EndSession` | app.js:444-490 | when confirmed (twice for an empty session), the history grows by exactly the flattened session casts and the session is cleared; otherwise nothing changes |
| `App.LongCastApp.DeleteCast` | app.js:503-511 | when confirmed, the history becomes `DeleteById` of the old one; nothing else changes |
| `App.LongCastApp.ImportData` | app.js:871-898 | an unreadable file changes nothing, a declined import changes nothing, a confirmed one replaces history and profile as the backup provides; session and suggestions are never touched |
| `App.LongCastApp.ClearAllData` | app.js:900-924 | only after both confirmations, history, profile, session and every suggestion list are emptied; otherwise nothing changes |

## Left out

- Reading and writing the page is not modelled: forms, `getElementById`, `innerHTML` templates, `escapeHtml`, navigation, toasts, and `checkActiveSession`, which only shows or hides the session panels. Form values are parameters of the methods.
- Canvas drawing calls are not modelled. `UpdateChart` returns the grid lines, the points and the labelled indices it would draw. The two `forEach` loops that draw the line and the dots compute the same points, so they are one loop here.
- Persistence is not modelled: `localStorage`, `sessionStorage`, `loadData`, `saveData`, `saveSession`, `loadSuggestions`, `saveSuggestions`, and the JSON encoding behind them. The state is the in-memory fields.
- The file handling of import and export is not modelled: `Blob`, object URLs, `FileReader`, and the case where no file is chosen. `ImportData` takes the parsed document, or `None` when `JSON.parse` fails.
- Malformed but parsable backups are not modelled, for example a `casts` key holding a non-array truthy value, or a document that is JSON `null`. The model's backup type only admits well-typed data.
- `saveProfile` replaces the profile with the form's values; this is not modelled.
- `loadProfile`, `updateRecentCasts`, `createCastHTML` and `displayHistory` are not modelled. They only store or render.
- Locale formatting is not modelled: `toFixed`, `toLocaleDateString`, `toLocaleTimeString`. Neither are the date strings that labels and times are made of.
- Floating point is not modelled. Distances and the chart and BMI arithmetic are reals. `NaN` distances, and the overflow of `Math.max(...distanze)` on very long lists, are not modelled.
- Distances are not validated. The code does not validate them either, and the model does not claim any bound on them.
- `Stats.CalculateImprovement`: when the older mean is 0 the division gives `Infinity` or `NaN`. The model returns `NotFinite` there rather than a number.
- `History.FilterHistory`: the period cutoff is `now - days * 86400000` ms. The code moves the calendar date back with `setDate`, which differs by an hour across a daylight-saving change.
- `History.Sort`: the contract states the permutation and the order, not stability. Stability is proved only for the fall-through comparator (`History.SortUnsortedKeepsOrder`).
- Text: case folding and Unicode normalisation are not modelled, since the code does neither.
