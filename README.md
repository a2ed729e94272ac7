# Yamamoto-juku time record: a Dafny model

The page lets a learner pick a drill (a unit such as たし算 and a level such
as 4-1), time an attempt with a stopwatch kept in the session state, save the
time as a row of a Google spreadsheet, and see the latest ten times of that
drill as a line chart with the drill's target times. This project models the
logic of that page and proves what it does:

- `Catalog` (catalog.dfy): the target-time table `TARGET_TIMES` and its
  two-level lookup, the unit list, the generated level list `1-1 … 10-2` and
  its default selection `4-1`.
- `DateOrder` (dates.dfy): the order of the date column. Dates are the
  strings the page writes, so sorting compares them code point by code point;
  the lemmas show this is a total order.
- `Sheet` (sheet.dfy): a record table as columns plus rows, the fallback of
  `load_data` and the concatenation `save_data` writes back.
- `Trend` (trend.dfy): the selection of `display_charts`: filter by unit and
  level, sort by date, keep the last ten, or draw nothing.
- `App` (app.dfy): the `Session` class holding the three stopwatch fields of
  the session state (`start_time`, `elapsed_time`, `is_running`), the
  worksheet and the read cache, with the start, stop and reset buttons, the
  cached load and the guarded save; then a few client methods that run button
  sequences on a fresh session.

The clock (`time.time()`), the timestamp string (`datetime.now().strftime`),
and whether the spreadsheet read and write succeed are parameters of the
methods. Times are `real`.

Behaviour of the code worth knowing, proved here:

- Stop does not check the clock. `time.time()` is a wall clock, so the
  measured time is non-negative only when the stop instant is not before the
  start instant (`App.Session.Stop`).
- The read cache also keeps the fallback empty table. After a failed read, a
  save writes the empty table plus the new row. That replaces the whole
  worksheet, whatever it held, by one row (`Sheet.SaveOnFallbackWritesOneRow`,
  `App.SaveAfterFailedRead`).
- The table written on save is the one loaded at the top of the run, which
  may come from the cache, not a fresh read.

## Model

| member | source | states |
|---|---|---|
| `Catalog.TargetFor` | app.py:15-23 | The nested lookup `TARGET_TIMES.get(unit, {}).get(level)` (lines 66 and 139) finds targets exactly for たし算 4-1, たし算 4-2 and ひき算 4-1. Every other unit or level gives None. In each found entry 0 < ◎ < ○, and たし算 4-1 has ○ 80 and ◎ 50. |
| `Catalog.TargetsOnlyForListedUnits` | app.py:58-66 | Every drill with targets belongs to a unit the sidebar offers (line 58), and neither かけ算 nor わり算 has targets at any level. |
| `Catalog.Decimal` | app.py:62 | `str(i)` inside the f-string is a non-empty digit string, one character long exactly when i < 10. |
| `Catalog.DecimalValue` | app.py:62 | The digits `str(i)` prints denote i. |
| `Catalog.DecimalInjective` | app.py:62 | Different numbers print as different strings. |
| `Catalog.LevelName` | app.py:62 | `f"{i}-{j}"` is the digits of i, then a hyphen right after them, then the digits of j. |
| `Catalog.LevelsOfMajor` | app.py:62 | The inner loop `for j in range(j, stop)` for one i yields stop − j names; entry k is `f"{i}-{j + k}"`. |
| `Catalog.LevelsFrom` | app.py:62 | The outer loop `for i in range(i, stop)` with the inner `j` in `range(1, 3)` yields 2·(stop − i) names. |
| `Catalog.Levels` | app.py:62 | The sidebar's level list is the comprehension with i from 1 to 10; it has 20 entries. |
| `Catalog.LevelsFromAt` | app.py:62 | Entry k of that comprehension is `f"{i + k/2}-{1 + k%2}"` (i is the outer loop variable, j the inner one). |
| `Catalog.LevelsAt` | app.py:62 | The sidebar's level list has 20 entries. Entry k is level (1 + k/2)-(1 + k%2), so the list runs 1-1, 1-2, 2-1, …, 10-2. |
| `Catalog.LevelNameIsDefault` | app.py:62-63 | Among the generated names, only i = 4, j = 1 spells "4-1". |
| `Catalog.IndexOf` | app.py:63 | `list.index` returns the position of the first occurrence. |
| `Catalog.DefaultLevelIndex` | app.py:63 | The selectbox index is the first position of "4-1" when the list has it, and 0 otherwise. |
| `Catalog.DefaultLevelOfSidebar` | app.py:62-63 | "4-1" is in the generated list, and the sidebar preselects index 6. |
| `DateOrder.DateLeq` | app.py:127 | Python's `<=` on strings, which `sort_values("日付")` sorts by: code point by code point, a proper prefix first. A proper prefix (or an equal string) is no later than the longer string. |
| `DateOrder.DateLeqReflexive` | app.py:127 | The string order used by `sort_values("日付")` is reflexive. |
| `DateOrder.DateLeqTotal` | app.py:127 | Any two dates are comparable. |
| `DateOrder.DateLeqTransitive` | app.py:127 | The order is transitive. |
| `DateOrder.DateLeqAntisymmetric` | app.py:127 | Two dates each no later than the other are equal. |
| `Sheet.IsEmpty` | app.py:39 | `df.empty`: the table has no rows or no columns. The fallback table is empty. |
| `Sheet.Usable` | app.py:39 | The negation of line 39's guard: the table is not empty and has a 日付 column. |
| `Sheet.LoadData` | app.py:36-44 | `load_data` returns the read table exactly when the read succeeded and the table is non-empty with a 日付 column. In every other case (the read raised, the table is empty, or the column is missing) it returns the empty table with the four columns 日付, 単元, レベル, タイム. |
| `Sheet.MissingColumns` | app.py:49 | The entry's keys that the table lacks, and only those. If the table has them all, there are none. |
| `Sheet.AppendEntry` | app.py:49 | `pd.concat` gives the old rows followed by the entry as one more row. The old columns keep their order, and all four entry columns are present, so the result is a table `load_data` passes through. |
| `Sheet.AppendKeepsFullColumns` | app.py:49 | Appending to a table that already has the four columns adds no column. |
| `Sheet.ReadAfterWrite` | app.py:36-51 | Loading the table `save_data` wrote gives it back unchanged, and its last row is the entry. |
| `Sheet.SaveOnFallbackWritesOneRow` | app.py:36-51 | When the load fell back to the empty table, the save writes a one-row sheet holding only the entry. |
| `Trend.Matches` | app.py:120 | The row mask `(df["単元"] == unit) & (df["レベル"] == level)`: true exactly when both fields equal the choice. |
| `Trend.Matching` | app.py:120 | The mask keeps only rows with the chosen unit and level. It keeps every such row as often as the table has it. |
| `Trend.MatchingEmpty` | app.py:120-124 | The filtered frame is empty exactly when no row has the chosen unit and level. |
| `Trend.InsertByDate` | app.py:127 | Inserting into a date-sorted sequence keeps it sorted and adds exactly the one row. |
| `Trend.SortByDate` | app.py:127 | `sort_values("日付")` yields the same rows, as a multiset, in ascending date order. |
| `Trend.Tail` | app.py:127 | `tail(n)` has min(n, length) elements and is the end of the sequence. |
| `Trend.Trend` | app.py:126-127 | The charted rows: the matching rows sorted by date, then the last ten. There are never more than ten. |
| `Trend.TrendProperties` | app.py:120-127 | The charted rows all have the chosen unit and level. They are sorted ascending by date and number min(10, matching rows). They are the end of the sorted matching rows and are rows of the table. |
| `Trend.TrendKeepsLatest` | app.py:127 | A matching row left out of the chart is no later than every charted row. |
| `Trend.DatesOfPermutation` | app.py:127 | Rearranging rows rearranges their dates. |
| `Trend.SortedDatesUnique` | app.py:127 | Two ascending arrangements of the same dates are identical. |
| `Trend.TrendDatesIndependentOfTies` | app.py:127 | Take any ascending-by-date arrangement of the matching rows. Its last ten rows have the same dates as the chart's. So an unstable sort changes nothing on the date axis. |
| `Trend.ChartFor` | app.py:120-140 | There is no chart exactly when no row matches the drill. Otherwise the chart has 1 to 10 points, namely the trend, and uses the drill's target lines when it has targets. |
| `App.Submit` | app.py:195-207 | The save guard: nothing is written when the input time is ≤ 0. Otherwise the new table is the loaded rows unchanged, followed by exactly one row with the timestamp, unit, level and time. |
| `App.Session.constructor` | app.py:77-82 | A fresh session has no start time, elapsed time 0 and is not running, with nothing cached. |
| `App.Session.Start` | app.py:88-91 | Start, from any state, sets the start time to now, running to true and elapsed time to 0. |
| `App.Session.Stop` | app.py:95-97 | Stop while running sets elapsed = now − start and running to false, keeping the start time; the elapsed time is ≥ 0 when now ≥ start. While not running, it changes nothing. |
| `App.Session.Reset` | app.py:101-104 | Reset, from any state, clears the start time, zeroes the elapsed time and stops. The new state does not depend on the old one, so reset is idempotent. |
| `App.Session.Status` | app.py:107-113 | The status reads "measuring" exactly while running. It reads "finished" with the elapsed time exactly when not running and the elapsed time is positive. |
| `App.Session.Load` | app.py:33-44 | A cached table is returned without reading. Otherwise the result of `load_data` on this read is returned and cached, fallback included. |
| `App.Session.Save` | app.py:195-207 | The save button writes the table from `Submit` and clears the cache (`save_data`, lines 46-51). It does so only when the time is positive and the write succeeds. A rejected time leaves the worksheet and the cache as they were. A failed write leaves the cache as it was and the worksheet in whatever state the failure left it, given as a parameter. |
| `App.StartThenStop` | app.py:88-111 | Start at t0, then stop at t1: the page reports "finished" with t1 − t0 exactly when t1 > t0, and nothing otherwise. |
| `App.StopTwice` | app.py:95-97 | A second stop leaves the measured time as the first stop set it. |
| `App.ResetAfterMeasuring` | app.py:101-111 | After a measurement one reset returns the stopwatch to idle, and a second reset changes nothing. |
| `App.SaveThenReload` | app.py:46-51 | After a successful save, the next load rereads the worksheet and sees the old rows plus the entry, so the rerun page has a chart for that drill. |
| `App.LoadTwice` | app.py:33-44 | Without a save in between, the second load is served from the cache, even if a read would now fail. |
| `App.RejectedSave` | app.py:195-207 | Saving a time ≤ 0 reports invalid input and leaves the worksheet unchanged. |
| `App.SaveAfterFailedRead` | app.py:36-51 | After a failed read, a save replaces the worksheet by a sheet holding only the new row. |

## Left out

- The Streamlit layout, buttons, sidebar selectboxes, `st.rerun` and messages are widgets and text. A button press is a method call, the chosen unit and level are parameters, and outcomes are `TimerStatus` and `SaveOutcome` tags.
- `init_connection`, `conn.read` and `conn.update` are network I/O. The worksheet is the `sheet` field, and a parameter says whether each read or write succeeds.
- App.Session.Save: a raising `conn.update` may have rewritten the worksheet partly or not at all, and nothing says which, so the state it leaves is a parameter of the call. The model promises nothing about it beyond the cache being left uncleared.
- The 60-second expiry of `st.cache_data` depends on the clock and is not modelled. Only the explicit `st.cache_data.clear()` is. The cache is also shared by all sessions of the process; the model has one session.
- Saves from other sessions race with this one as whole-sheet rewrites, the last write winning. Concurrency is not modelled.
- `time.time()` and `datetime.now().strftime(...)` are taken as arguments. Nothing is claimed about the format of the timestamp, beyond ordering dates as strings.
- `st.number_input` (lines 187-193) is not modelled. Its rounding to one decimal and its display format are floating-point presentation. Its `min_value=0.0` is a bound with two effects the model does not have:
  - the entered time is never negative, so the rejection at lines 206-207 is reached only for exactly 0;
  - when the default `round(elapsed_time, 1)` is negative, after a Stop with the clock stepped back, the widget refuses it and the page errors instead of offering a value.
  The model takes the entered time as an arbitrary real, so its guard covers more inputs than the page can produce.
- Plotly figure construction, the dashed `add_hline` lines and the axis layout are rendering. `Trend.ChartFor` keeps only which rows are plotted and which targets are drawn.
- Rows read back are assumed to carry the four record values. Extra columns' values, type coercion by the spreadsheet reader, and the `KeyError` that a sheet with a 日付 column but no 単元 column would raise in `display_charts` are not modelled.
- Trend.SortByDate: breaks ties between rows of equal date in one fixed way; `sort_values` promises no order for them, so the only lemma about the sort beyond sortedness and permutation, `Trend.TrendDatesIndependentOfTies`, holds for every tie order.
- The per-key initialisation of the session state (lines 77-82) can only occur all at once in a fresh session, so it is the constructor.
