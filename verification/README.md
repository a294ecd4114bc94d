# Vikasya emotion dashboard — aggregation core in Dafny

This project models the logic behind Vikasya's emotion dashboard. The
dashboard takes a list of recorded moods, `{timestamp, emotion, confidence}`,
and reduces it five ways:

- **Heat map** (`HeatMap`). A 7-weekday × 4-time-slot grid. When two entries
  land in the same cell, the later one wins. Unwritten cells are empty.
- **Weekly overview** (`EmotionStats`). One bar per distinct emotion string,
  in order of first appearance. Separately, a per-day tally of sad or angry
  entries with confidence above 0.8. A day reaching three is a danger day,
  and an alert shows when at least one danger day exists.
- **Summary card** (`EmotionSummary`). Counts of happy, sad, angry and
  neutral, starting from zero. Other strings are ignored. A whole-dataset
  danger flag is raised at sad + angry ≥ 4.
- **Trend and pie charts** (`EmotionGraphs`). One row per date, in order of
  first appearance, holding that date's four mood counts. A pie of four
  slices gives the overall distribution.
- **Calendar** (`CalendarView`). Each day of the month is coloured by the
  last emotion recorded on that date, or `neutral` if there is none.

A sixth module, `Dashboard`, models the filter that keeps only entries of
the four known moods. Its output feeds the heat map and the weekly overview.

Supporting modules:

- `Entries` holds the entry record, the four-mood enumeration, and reference
  counts (`Occurrences`, `KnownCount`). It also holds the `Tally` of four
  counters.
- `InsertionMap` models a JavaScript object whose key order is observed.
  Keys are listed in first-insertion order beside a map, and
  `FirstOccurrences` is an independent reference for that order.

Each fold is stated once as a left fold over the entry list. Each is
connected to a reference definition by an all-inputs lemma. A reference
definition says what the fold's result should be without re-running the
fold, e.g. "the number of entries with this emotion" or "the last entry
that lands in this cell".

The browser parses each timestamp into a date string, a weekday and an
hour. Here that parsing is already done: every `Entry` carries `dayKey`,
`weekday` (0–6, Sunday first, as `Date.getDay` numbers days) and `hour`
(0–23). The three views format dates in three different ways
(`toDateString`, `toLocaleDateString("en-IN")` and `yyyy-MM-dd`). Each is an
injective function of the local calendar day, so one `dayKey` stands for all
three and the grouping is the same.

## Model

| member | source | states |
|---|---|---|
| HeatMap.DayName | components/HeatMap.tsx:15-16 | every day number names a column of the rendered grid |
| HeatMap.DayNameInjective | components/HeatMap.tsx:15-16 | distinct day numbers get distinct names |
| HeatMap.DayZeroIsSunday | components/HeatMap.tsx:15-16 | day number 0, which `getDay` gives Sundays, is named Sunday |
| HeatMap.DayNameOnto | components/HeatMap.tsx:15-16 | every column name is the name of some day number |
| HeatMap.TimeSlot | components/HeatMap.tsx:18-24 | hours 5–11 are Morning, 12–16 Afternoon, 17–20 Evening, and every other hour Night, each in both directions |
| HeatMap.TimeslotsPartitionHours | components/HeatMap.tsx:18-24 | every hour falls in exactly one of the four listed time slots |
| HeatMap.Bucket | components/HeatMap.tsx:39-49 | the grid only ever has weekday keys and, under them, time-slot keys |
| HeatMap.AppendChangesOnlyOwnCell | components/HeatMap.tsx:47-48 | appending an entry sets its own cell to its emotion, and every other cell is unchanged |
| HeatMap.CellIsLastWriter | components/HeatMap.tsx:41-49 | a cell is empty exactly when no entry lands in it; otherwise it holds the emotion of the last entry that does |
| HeatMap.AllCellsLastWriter | components/HeatMap.tsx:41-49 | the last-writer property for every cell at once |
| HeatMap.Render | components/HeatMap.tsx:35-84 | the rendered grid is always 4 rows of 7 cells; a cell no entry lands in shows nothing, and any other cell shows the last entry's emotion |
| HeatMap.EveryEntryIsDisplayed | components/HeatMap.tsx:15-36 | every entry lands in one of the 28 displayed cells |
| EmotionStats.Collect | components/EmotionStats.tsx:28-39 | the one-pass fold building `emotionCounts` and `dailySadAngryCounts`; it never keys more days than there are entries, and its contents are stated by the next four rows |
| EmotionStats.CountsOrder | components/EmotionStats.tsx:32-33 | the count keys are the distinct emotions, in order of first appearance |
| EmotionStats.CountsTotal | components/EmotionStats.tsx:28-33 | the counts over all keys sum to the number of entries |
| EmotionStats.CountsAreOccurrences | components/EmotionStats.tsx:32-33 | an emotion has a key exactly when it occurs, and its count is its number of occurrences |
| EmotionStats.DailyCountsAreHighRisk | components/EmotionStats.tsx:35-38 | a day has a tally exactly when it has a sad or angry entry with confidence above 0.8, and the tally is the number of such entries |
| EmotionStats.AppendDailyEffect | components/EmotionStats.tsx:35-38 | an appended entry raises its own day's tally by one exactly when it is sad or angry with confidence above 0.8; otherwise no tally changes |
| EmotionStats.DangerDayIff | components/EmotionStats.tsx:35-41 | a day is a danger day exactly when it has at least 3 high-confidence sad or angry entries |
| EmotionStats.ShowsAlert | components/EmotionStats.tsx:62 | the alert condition `dangerDays.length > 0`; it can only hold for a list of at least three entries |
| EmotionStats.AlertIff | components/EmotionStats.tsx:62-70 | the alert shows exactly when some recorded day has at least 3 high-confidence sad or angry entries |
| EmotionStats.DangerDaysGrow | components/EmotionStats.tsx:35-41 | appending an entry never removes a danger day, so the alert's day count never drops |
| EmotionStats.ChartData | components/EmotionStats.tsx:43-46 | the bars are named by the distinct emotions in order of first appearance, and each bar's height is that emotion's positive number of occurrences |
| EmotionStats.ChartShape | components/EmotionStats.tsx:28-46 | no emotion gets two bars, bars are ordered by first appearance, and the heights sum to the number of entries |
| EmotionSummary.Summarize | components/EmotionSummary.tsx:25-36 | an empty list gives all-zero counts, and each mood's counter is its number of occurrences, so other emotions add nothing |
| EmotionSummary.SummaryTotal | components/EmotionSummary.tsx:32-36 | the four counters sum to the number of known entries, which is at most the list length, and equals it exactly when every entry is known |
| EmotionSummary.DangerZone | components/EmotionSummary.tsx:38 | the flag `sad + angry >= 4` on the counters; when raised, the counters total at least 4 |
| EmotionSummary.DangerZoneIff | components/EmotionSummary.tsx:38 | the flag is raised exactly when sad plus angry occurrences reach 4 |
| EmotionSummary.SummaryIgnoresConfidence | components/EmotionSummary.tsx:24-42 | lists with the same emotions in the same order get the same counts and the same flag, whatever their timestamps and confidences |
| EmotionSummary.DangerZoneStays | components/EmotionSummary.tsx:32-38 | appending an entry never lowers a counter, so a raised flag stays raised |
| EmotionGraphs.WithMoodIsOccurrences | components/EmotionGraphs.tsx:53-55 | the points with a mood are the entries with that emotion |
| EmotionGraphs.RowsByDate | components/EmotionGraphs.tsx:36-42 | the `lineDataMap` fold; it never has more dates than points, and its contents are stated by the row lemmas below |
| EmotionGraphs.LineData | components/EmotionGraphs.tsx:44 | `Object.values(lineDataMap)`; never more rows than entries, with the row order and contents stated by `OneRowPerDate` and `LineRowsCountDays` |
| EmotionGraphs.OneKeyPerDate | components/EmotionGraphs.tsx:36-40 | the row keys are the distinct dates, in order of first appearance |
| EmotionGraphs.OneRowPerDate | components/EmotionGraphs.tsx:36-44 | the trend data has exactly one row per date, ordered by first appearance |
| EmotionGraphs.RowIffEntries | components/EmotionGraphs.tsx:38-40 | a date has a row exactly when some entry has that date |
| EmotionGraphs.RowCountsMood | components/EmotionGraphs.tsx:38-41 | a row's counter for a mood is the number of that date's entries with that mood |
| EmotionGraphs.RowCountsTotal | components/EmotionGraphs.tsx:38-41 | a row's four counters sum to the number of that date's entries |
| EmotionGraphs.LineRowsCountDays | components/EmotionGraphs.tsx:36-44 | every trend row counts its date's entries per mood, and its counters sum to the positive number of entries on that date |
| EmotionGraphs.PieCounts | components/EmotionGraphs.tsx:53-55 | the four pie counters sum to the number of entries |
| EmotionGraphs.PieCountsWithMood | components/EmotionGraphs.tsx:53-55 | each pie counter is the number of entries with its mood |
| EmotionGraphs.RowsSumToPie | components/EmotionGraphs.tsx:36-55 | for each mood, its counts summed over all trend rows equal its pie count |
| EmotionGraphs.PieData | components/EmotionGraphs.tsx:46-60 | exactly four slices, named happy, sad, angry, neutral in that order, each valued at its mood's occurrences, together summing to the number of entries |
| EmotionGraphs.OneSlicePerMood | components/EmotionGraphs.tsx:46-60 | every mood has exactly one slice, valued at that mood's number of entries |
| CalendarView.LatestByDate | components/CalendarView.tsx:36-40 | the `emotionByDate` fold; it is empty exactly for an empty list and never has more dates than entries, and its contents are stated by `KeyIffEntry` and `ValueIsLast` |
| CalendarView.AppendChangesOnlyOwnDay | components/CalendarView.tsx:38-39 | appending an entry sets its own date to its emotion and leaves every other date as it was |
| CalendarView.KeyIffEntry | components/CalendarView.tsx:37-40 | a date has a key exactly when some entry has that date |
| CalendarView.ValueIsLast | components/CalendarView.tsx:36-40 | a date's value is the emotion of the last entry on that date |
| CalendarView.DayEmotion | components/CalendarView.tsx:48 | the colour is never empty: a missing date or empty emotion gives neutral, and otherwise the recorded emotion |
| CalendarView.Month | components/CalendarView.tsx:46-47 | one square per day of the month, in order, each carrying its date |
| CalendarView.UnrecordedDayIsNeutral | components/CalendarView.tsx:47-48 | a day with no entry is shown as neutral |
| CalendarView.RecordedDayShowsLast | components/CalendarView.tsx:36-48 | a day with entries shows the last one's emotion, or neutral if that emotion is empty |
| CalendarView.AppendRecoloursOwnDay | components/CalendarView.tsx:38-39 | appending an entry leaves every square of another date unchanged |
| Dashboard.Normalize | components/Dashboard.tsx:16-22 | the `typedEmotions` filter; never longer than its input, and the rows below pin its output |
| Dashboard.NormalizeLength | components/Dashboard.tsx:16-17 | the output has one entry per known entry, so it is never longer than the input |
| Dashboard.NormalizeKeepsKnown | components/Dashboard.tsx:16-17 | every output entry has one of the four moods |
| Dashboard.NormalizeIsSubsequence | components/Dashboard.tsx:16-22 | the output is obtained from the input by deleting entries, so order is kept and every field is copied unchanged |
| Dashboard.NormalizeContents | components/Dashboard.tsx:16-22 | an entry of known mood is kept as often as it occurs, and any other entry never appears |
| Dashboard.NormalizeKeepsAllKnown | components/Dashboard.tsx:16-17 | a list already of known moods passes through unchanged |
| Dashboard.NormalizeIdempotent | components/Dashboard.tsx:16-22 | filtering twice is filtering once |
| Dashboard.NormalizeKeepsSummary | components/Dashboard.tsx:16-17 | the summary of the filtered list equals the summary of the raw list |
| Dashboard.NormalizeKeepsDangerDays | components/Dashboard.tsx:16-17 | the filter neither hides nor invents a danger day |

## Left out

- All JSX, CSS, recharts and animation are left out: they only present the computed values. This includes the colour tables (`emotionColors`, `COLORS`) and the background colour chosen per cell.
- Timestamp parsing (`new Date`, `getDay`, `getHours`, `toDateString`, `toLocaleDateString`, date-fns `format`) is not modelled. Its results are fields of `Entry`.
- Reading `emotions.json` (a static import, or `fetch` in the calendar) is left out. The entry list is a parameter. React state (`useState`, `useEffect`) is left out too: each view is a function of its list, so recomputing over the same list gives the same result by construction.
- The calendar's month is left out. `eachDayOfInterval` over the current month depends on the clock, so `CalendarView.Month` takes the month's date keys as a parameter.
- JavaScript object quirks are not modelled: integer-like keys sorting first in `Object.keys`, and keys such as `constructor` or `__proto__` that hit the prototype. Keys are taken to be ordinary strings listed in insertion order.
- EmotionGraphs.Points: the trend and pie folds require every emotion to be one of the four moods. On any other string, EmotionGraphs.tsx increments an undefined field and produces `NaN` or an extra key, which is not modelled.
- Confidence is taken to be the exact decimal written in the data file (`real`), not the JavaScript double it is parsed into. So the `> 0.8` test of EmotionStats.tsx:35 can classify differently for values within half an ulp of 0.8: `0.80000000000000001` parses to the double 0.8 and is not high-risk in the browser, but is high-risk here.
- Every timestamp is taken to be a valid date; an unparseable one is not modelled. In the browser, HeatMap.tsx:15-24 would get `NaN` from `getDay` and `getHours` and file the entry under the never-rendered `emotionMap["undefined"]["Night"]`, so `HeatMap.EveryEntryIsDisplayed` relies on this assumption. EmotionStats.tsx:30 and EmotionGraphs.tsx:37 would give all such entries the one day key `"Invalid Date"`, so three high-risk entries with different bad timestamps make a danger day. CalendarView.tsx:38 would throw a `RangeError` from date-fns `format`.
- EmotionStats.DangerDays: `dangerDays` is an array of tallies whose length is displayed. The model keeps the set of days instead; the two have the same size because each day has one tally.
- The dashboard wiring is not modelled as a single function. Only the heat map and the weekly overview receive the filtered list; the summary, the graphs and the calendar read the raw data themselves. The `Dashboard.NormalizeKeeps*` lemmas show the filter does not change the summary or the danger days.
- The other files of the repository are not part of this model: the home and public-issue pages, the issue cards and the animated background. They are geolocation and fetch I/O, mock data, random layout or a one-line colour choice.

