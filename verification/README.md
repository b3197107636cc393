# health-stack: a Dafny model of the dashboard's computations

health-stack is a single-page dashboard for a daily supplement protocol. Its
configuration object holds a schedule of periods: morning, midday, afternoon
and so on. Each period has an hour offset from a configurable morning anchor
and lists of items. An item may carry an `organ_load` (liver and kidney
burden) and `macros` (calorie and protein strings such as `"35g"`). From this
the dashboard computes:

- **the hourly organ-load series** (`calculateOrganLoad`): 25 buckets (hours
  0 to 24). Each loaded item taken at clock hour `h` spreads its load over
  hours `h`, `h+1` and `h+2` (mod 24) with weights 0.5, 0.35 and 0.15.
- **the two charted timelines**. `generateOptimizedData` pairs a fixed table
  of illustrative pathway levels with the computed organ load, which is
  clamped above at 1. `generateWesternData` is a fixed comparison table. Each
  row gets a zero-padded `HH:00` clock label.
- **the daily totals**: calories and protein summed from the `macros` of the
  oral and with-food items, read with JavaScript's `parseInt`. The fasting
  window is a fixed 17 hours.
- **the morning anchor** `morning_offset || 9`, and the per-period clock
  label `getClockTime`.
- **the block structure of the assistant's Markdown replies**
  (`renderMarkdown`). Each `###` or `##` heading line and each other
  non-blank line becomes a block of its own. Only consecutive `-`/`*`/`1.`
  list lines are grouped, into one bullet list. Blank lines are skipped and
  do not end a list.

The model is written in pure functions over immutable datatypes. The
JavaScript details the code relies on are written out in module `JsText`:
- `%` truncates toward zero, so a negative hour key is `-1..-23`;
- `parseInt` reads leading white space, a sign, a `0x` prefix and the
  leading digits, and `|| 0` turns NaN into 0;
- `\s` and `trim()` white space;
- `toString`, `padStart(2, '0')` and `split('\n')`.

Modules:
- `Wrappers`: `Option` and `Result`.
- `Sequences`: a multiset lemma.
- `JsText`: the string and number primitives above.
- `Schedule`: the configuration data model and the built-in default
  configuration.
- `Convolver`: the organ-load series.
- `Timeline`: the chart rows, clock labels and dashboard wiring.
- `DailyTotals`: the macro totals.
- `Markdown`: the reply block structure.

Each computation is paired with an independent reference definition and
proved equal to it:
- `LoadAt` is the organ load of bucket `j` as a sum over periods and items
  of a weight kernel.
- `ScheduleIntake` is a sum over periods of item intakes.
- `Entries`/`Kinds` give the non-blank classified lines that a block
  sequence stands for.

Where the code departs from a plain description of the dashboard, the model
follows the code:
- There are 25 buckets, not 24. Bucket 24 exists but is never written.
- Row 24 of the optimized table is not a copy of row 0: gaba is 0.90
  against 0.88, cortisol is 0.12 against 0.15, and the caption differs.
- A morning offset of 0 is replaced by 9.
- A period whose anchored hour `morningOffset + time` is negative and not a
  multiple of 24, and which holds a loaded item, makes the code index a
  bucket that does not exist, and it throws. The optimized data is computed
  before the diet mode is consulted, so the dashboard fails in Western mode
  too. The model returns `Failure` with the offending key.

## Model

| member | source | states |
|---|---|---|
| Schedule.MorningOffset | src/App.jsx:461 | the anchor is never 0; a configured non-zero offset is used as is, and any anchor other than 9 was configured |
| Schedule.TimeOrZero | src/App.jsx:198 | `period.time \|\| 0`: a missing time is 0 (no contract of its own; `Convolver.AccumulateSameInputs` shows it is all of `time` the load computation reads) |
| Schedule.LoadItems | src/App.jsx:200-205 | the four counted lists `oral`, `with_food`, `uti`, `separate` spread in that order, a missing list read as empty (no contract of its own; `Convolver.AccumulateSameInputs` and `Convolver.LoadDependsOnlyOnLoadLists` state that the load reads a period only through them) |
| Schedule.MealItems | src/App.jsx:468 | the `oral` and `with_food` lists, a missing list read as empty (no contract of its own; `DailyTotals.OnlyMealListsCount` and `DailyTotals.ItemOrderIrrelevant` state that the totals read a period only through them) |
| Schedule.ScheduleOf | src/App.jsx:462 | `config?.schedule \|\| {}`: a missing schedule is empty (no contract of its own; `Timeline.TimelineData` and `DailyTotals.ComputeDailyTotals` state what is computed from it) |
| Schedule.DefaultConfigAnchoring | src/App.jsx:3-188 | the default configuration anchors at 9 and has seven present periods at offsets 0..15 |
| JsText.JsRem24 | src/App.jsx:198 | JavaScript `% 24`: the result lies in (-24, 24), differs from the input by a multiple of 24 and has the input's sign |
| JsText.NatToString | src/App.jsx:257 | `toString` gives decimal digits without leading zeros whose value is the number; one digit exactly below 10 |
| JsText.IntToString | src/App.jsx:603 | `toString` of an integer starts with '-' exactly when it is negative; the rest is the decimal spelling of its magnitude, without leading zeros |
| JsText.PadStart2 | src/App.jsx:257 | `padStart(2, '0')` keeps the string as a suffix, fills up to length 2 and only with '0' |
| JsText.ParseInt | src/App.jsx:469-470 | `parseInt` yields a non-negative number for a string led by a digit 1-9 and NaN for a blank string |
| JsText.ParseIntLeadingDigits | src/App.jsx:469-470 | `parseInt` of digits followed by a non-digit reads exactly the leading digits (`"35g"` is 35) |
| JsText.ParseIntNatToString | src/App.jsx:469-470 | `parseInt` inverts `toString` on naturals, whatever non-digit suffix follows |
| JsText.ParseIntIntToString | src/App.jsx:256 | `parseInt(i.toString()) === i` for every integer written in plain decimal, negative ones included; the hour keys the dashboard converts are all of this kind |
| JsText.Split | src/App.jsx:319 | `split('\n')` gives at least one separator-free piece, and joining the pieces gives the text back |
| JsText.SplitJoin | src/App.jsx:319 | splitting a join of separator-free pieces gives the pieces back |
| JsText.SplitAtSeparator | src/App.jsx:319 | a separator ends exactly one piece |
| Convolver.ZeroSeries | src/App.jsx:191-194 | the 25 zeroed buckets the loop starts from (no contract of its own; `Convolver.UnloadedScheduleIsZero` states that with no loaded item they are the result) |
| Convolver.Factor | src/App.jsx:211 | the weights 0.5, 0.35, 0.15 of offsets 0, 1, 2 (no contract of its own; `Convolver.TapsMatchWeights` and `Convolver.KernelShape` state where each lands) |
| Convolver.Amount | src/App.jsx:212-213 | `organ_load.liver \|\| 0` and `organ_load.kidney \|\| 0` (no contract of its own; `Convolver.MissingLoadFieldReadsAsZero` states that a missing field and an explicit 0 give the same result) |
| Convolver.AddAt | src/App.jsx:212-213 | the `+=` on one bucket (no contract of its own; `Convolver.TapsMatchWeights` states that every other bucket is untouched and the target gains the weighted load) |
| Convolver.Taps | src/App.jsx:209-214 | the three-tap loop keeps 25 buckets; `Convolver.TapsMatchWeights` pins every bucket to the load times the 0.5/0.35/0.15 weight at h, h+1, h+2 mod 24 |
| Convolver.SpreadItems | src/App.jsx:207-216 | the item loop keeps 25 buckets, skipping items without `organ_load`; `Convolver.SpreadItemsMatchWeights` pins each bucket to the weighted sum over the items |
| Convolver.ClockHour | src/App.jsx:198 | `(morningOffset + (period.time \|\| 0)) % 24` with the truncating remainder (no contract of its own; `Convolver.ClockHourKey` states when it names a bucket) |
| Convolver.HasLoad | src/App.jsx:208 | some item of the counted lists has an `organ_load`, the only case in which an update of a missing bucket is attempted (no contract of its own; used by `Convolver.Anchored` and `Convolver.CalculateOrganLoad`) |
| Convolver.Accumulate | src/App.jsx:196-217 | the period loop keeps 25 buckets on success; `Convolver.AccumulateMatchesReference` pins its result and its failure to the reference |
| Convolver.CalculateOrganLoad | src/App.jsx:190-220 | succeeds exactly when every loaded period's hour key exists; then 25 buckets, bucket j equal to the reference load `LoadAt`; otherwise the missing key is in (-24, 0) |
| Convolver.ClockHourKey | src/App.jsx:198 | the hour key is below 24, and is a valid (non-negative) key exactly when `KeyExists` |
| Convolver.AccumulateMatchesReference | src/App.jsx:196-217 | the period loop fails exactly when some loaded period is unanchored, and otherwise adds `LoadAt` to every bucket |
| Convolver.SpreadItemsMatchWeights | src/App.jsx:207-216 | the item loop adds, per bucket, the sum over items of the weighted loads |
| Convolver.TapsMatchWeights | src/App.jsx:209-214 | the three taps add the load times weight 0.5/0.35/0.15 at hours h, h+1, h+2 mod 24 and nothing elsewhere |
| Convolver.UnloadedItemsAddNothing | src/App.jsx:208 | items without `organ_load` contribute nothing |
| Convolver.Conservation | src/App.jsx:190-220 | the buckets sum to the total load the schedule injects (weights sum to 1) |
| Convolver.UnloadedScheduleIsZero | src/App.jsx:191-194 | with no loaded item the result is the 25 zero buckets, whatever the anchor |
| Convolver.LastBucketStaysEmpty | src/App.jsx:192-210 | bucket 24 is never written |
| Convolver.KernelShape | src/App.jsx:209-213 | buckets weighted by the kernel at hour h hold half the load at h, 35% at h+1 and 15% at h+2 (mod 24), and nothing elsewhere |
| Convolver.SingleItemSpread | src/App.jsx:209-213 | one item lands 50%/35%/15% of its load at h, h+1, h+2 mod 24, zero elsewhere, total equal to its load |
| Convolver.AnchoredConcat | src/App.jsx:196-198 | a concatenation is anchored exactly when both parts are |
| Convolver.Additivity | src/App.jsx:196-217 | the load of two schedules joined is the bucketwise sum, failing exactly when either fails |
| Convolver.HasLoadPermutation | src/App.jsx:207-208 | whether any item carries a load depends only on the items' `organ_load` fields up to order, not on ids, macros or order |
| Convolver.PeriodOrderIrrelevant | src/App.jsx:196 | reordering the periods does not change the result or whether it fails |
| Convolver.SpreadItemsPermutation | src/App.jsx:207-216 | the item loop depends only on the items' `organ_load` fields up to order: ids, macros and order do not change the buckets |
| Convolver.AccumulateSameInputs | src/App.jsx:196-205 | the period loop reads only presence, `time \|\| 0` and the four counted lists |
| Convolver.LoadDependsOnlyOnLoadLists | src/App.jsx:196-216 | the result, error included, depends on each period only through its presence, `time \|\| 0` and the `organ_load` fields of its four counted lists up to order: topical lists, item ids and macros do not affect it |
| Convolver.AccumulateSkipsNull | src/App.jsx:197 | a null period leaves the loop state unchanged |
| Convolver.NullPeriodSkipped | src/App.jsx:197 | inserting a null period anywhere changes nothing |
| Convolver.TotalSpreadItems | src/App.jsx:207-216 | the item loop adds exactly the items' total load to the bucket sum |
| Convolver.AccumulateTotal | src/App.jsx:196-217 | the period loop adds exactly the schedule's total load |
| Convolver.SpreadItemsSameAmounts | src/App.jsx:207-216 | the item loop reads each item only through whether it has a load and that load's amounts read with `\|\| 0` |
| Convolver.AccumulateSameAmounts | src/App.jsx:196-216 | the period loop gives the same buckets and error for schedules whose periods match in presence, offset and the per-item amounts |
| Convolver.MissingLoadFieldReadsAsZero | src/App.jsx:212-213 | a missing liver or kidney value counts as 0: replacing it by an explicit 0 (or any load by one of equal amounts) changes neither the buckets nor the error |
| Timeline.ClockTime | src/App.jsx:257 | the label is two digits spelling `h % 24` followed by ":00" |
| Timeline.ClockTimeParses | src/App.jsx:257 | reading the label back with `parseInt` gives `h % 24` |
| Timeline.LabelParses | src/App.jsx:257 | any two-digit `HH:00` label parses back to its hour |
| Timeline.ClockTimeInjective | src/App.jsx:257 | distinct hours of the day get distinct labels |
| Timeline.GetClockTime | src/App.jsx:601-604 | an existing key gives the `HH:00` label of the clock hour; a negative remainder -n (0 < n < 24, congruent to the key mod 24) gives '-', the unpadded decimal spelling of n, then ":00" |
| Timeline.NegativeKeyLabels | src/App.jsx:601-604 | from a 09:00 anchor, offsets -10 and -24 are labelled "-1:00" and "-15:00" |
| Timeline.Clamp | src/App.jsx:259-260 | `Math.min(x, 1)` clamps from above only: never above 1 or x, equal to x when x <= 1 |
| Timeline.OptimizedRow | src/App.jsx:253-262 | one row of the optimized table (no contract of its own; `Timeline.GenerateOptimizedData` states what every row holds) |
| Timeline.GenerateOptimizedData | src/App.jsx:222-263 | fails exactly as the organ load does; otherwise 25 rows with their hour, label and pathway levels, liver/kidney the clamped reference load at `h % 24`, row 24 repeating row 0's loads |
| Timeline.WrapRowKeepsOwnLevels | src/App.jsx:226-250 | rows 0 and 24 of the pathway table differ (gaba 0.88/0.90, cortisol 0.15/0.12) |
| Timeline.TaurineBucket | src/App.jsx:158 | taurine alone at offset 14 from 9 puts a negative liver load (-0.05) in bucket 23 |
| Timeline.NegativeLoadPassesThrough | src/App.jsx:259-260 | a negative load is charted unclamped |
| Timeline.GenerateWesternData | src/App.jsx:265-299 | 25 fixed rows with hour, `HH:00` label, and the table's literal levels and liver/kidney figures, whatever the schedule; those loads lie in [0, 0.25] |
| Timeline.WesternLoadsBounded | src/App.jsx:267-291 | the Western table's organ loads lie in [0, 0.25] |
| Timeline.OptimizedLevelsInUnitRange | src/App.jsx:226-250 | every pathway level of the optimized table is in [0, 1] |
| Timeline.WesternLevelsInUnitRange | src/App.jsx:267-291 | every pathway level of the Western table is in [0, 1] |
| Timeline.TimelineData | src/App.jsx:461-464 | fails exactly when the configured schedule is unanchored, in either mode; otherwise 25 rows with their hours, being exactly the Western table in Western mode and exactly the optimized data for the configured schedule and the `\|\| 9` offset in optimized mode |
| Timeline.ZeroOffsetActsAsNine | src/App.jsx:461 | a configured offset of 0 charts as offset 9 |
| Timeline.DefaultConfigCharts | src/App.jsx:3-188 | the default configuration charts without failure in both modes |
| DailyTotals.MacroAmount | src/App.jsx:469-470 | an absent or blank field adds 0; a field led by 1-9 adds a non-negative amount |
| DailyTotals.MacroAmountReadsLeadingDigits | src/App.jsx:469-470 | "35g" adds 35: the leading digits are read |
| DailyTotals.MacroAmountOfNaN | src/App.jsx:469-470 | unreadable text adds 0 (`\|\| 0`) |
| DailyTotals.MacroAmountRoundTrip | src/App.jsx:469-470 | a count written with `toString` and a unit suffix adds that count |
| DailyTotals.ListMacros | src/App.jsx:468-471 | the item scan, which adds `parseInt(field) \|\| 0` for each present, non-empty calories and protein field, equals the sum of the items' intakes |
| DailyTotals.ScheduleMacros | src/App.jsx:467-471 | the period scan, skipping absent periods, equals the schedule's reference intake |
| DailyTotals.ComputeDailyTotals | src/App.jsx:466-472 | the totals equal the reference intake of the configured schedule, fasting hours 17 |
| DailyTotals.SumConcat | src/App.jsx:467 | sums split over concatenation |
| DailyTotals.SumStep | src/App.jsx:467-471 | one scan step adds one element to the prefix sum |
| DailyTotals.IntakeAdditivity | src/App.jsx:466-472 | the intake of joined schedules is the sum of their intakes |
| DailyTotals.SumPermutation | src/App.jsx:467-468 | sums do not depend on order |
| DailyTotals.PeriodOrderIrrelevant | src/App.jsx:467 | reordering periods does not change the totals |
| DailyTotals.ItemOrderIrrelevant | src/App.jsx:468 | reordering a period's oral and with-food items does not change its intake |
| DailyTotals.OnlyMealListsCount | src/App.jsx:467-471 | periods whose oral and with-food items carry the same macros in order give the same totals: presence, organ loads, item ids, times and the other lists are not read |
| DailyTotals.NullPeriodSkipped | src/App.jsx:468 | a null period adds nothing |
| DailyTotals.MealIntake | src/App.jsx:469-470 | a meal whose fields are `toString` of counts (protein with "g") adds exactly those counts |
| DailyTotals.NoMacrosAddNothing | src/App.jsx:469-470 | items without macros add nothing |
| DailyTotals.LeadingMeal | src/App.jsx:468-471 | a list led by one meal and otherwise macro-free adds that meal's intake |
| DailyTotals.DigitMealIntake | src/App.jsx:469-470 | three-digit calories and a two-digit "NNg" protein add their digit values |
| DailyTotals.MealLedPeriod | src/App.jsx:468-471 | a period whose meals are one macro-carrying meal followed by plain doses contributes exactly that meal's calories and protein |
| DailyTotals.MiddayIntake | src/App.jsx:45 | the default midday period adds 500 kcal and 35 g |
| DailyTotals.LateAfternoonIntake | src/App.jsx:112 | the default late-afternoon period adds 450 kcal and 18 g |
| DailyTotals.DinnerIntake | src/App.jsx:135 | the default dinner period adds 700 kcal and 40 g |
| DailyTotals.MealFreeIntakes | src/App.jsx:8-188 | the default morning, afternoon, wind-down and bedtime periods add nothing |
| DailyTotals.SevenPeriods | src/App.jsx:467 | a seven-period schedule's intake is the sum of its periods' intakes |
| DailyTotals.DefaultDailyTotals | src/App.jsx:466-472 | the default configuration totals 1650 kcal and 93 g protein |
| Markdown.ItemText | src/App.jsx:344-345 | the item text is the line with exactly its marker removed: the two characters of a bullet, or the digits, full stop and white-space character of a numbered item |
| Markdown.ClassifyMeaning | src/App.jsx:342-346 | a line is an h4 exactly when it starts "### ", an h3 exactly when it starts "## " but not "### ", a list item exactly when neither heading applies and it is a bullet or numbered line, blank exactly when it is all white space, otherwise a paragraph holding the whole line |
| Markdown.Render | src/App.jsx:319-349 | the blocks are well grouped (no empty list, no two lists adjacent) and stand for exactly the classified non-blank lines, in order |
| Markdown.RenderMarkdown | src/App.jsx:317-350 | nothing exactly for an absent or empty text; otherwise well-grouped blocks standing for the classified lines of `split('\n')` |
| Markdown.Classify | src/App.jsx:342-346 | the ordered tests of the line loop (no contract of its own; `Markdown.ClassifyMeaning` states their outcomes) |
| Markdown.Emit | src/App.jsx:342-346 | pushing one rendered block (no contract of its own; `Markdown.StepEntries` and `Markdown.RunEntries` state that each non-blank line is accounted for once, in order) |
| Markdown.Flush | src/App.jsx:323-332 | `flushList` (no contract of its own; `Markdown.FlushEntries` and `Markdown.FlushGood` state what it keeps) |
| Markdown.Step | src/App.jsx:341-347 | one iteration of the line loop (no contract of its own; `Markdown.StepEntries` and `Markdown.StepGood` state its effect) |
| Markdown.Run | src/App.jsx:341-347 | the line loop (no contract of its own; `Markdown.RunEntries`, `Markdown.RunKeepsGood` and `Markdown.RunConcat` state its effect) |
| Markdown.FlushEntries | src/App.jsx:323-332 | `flushList` empties the pending items and loses none |
| Markdown.FlushGood | src/App.jsx:323-332 | `flushList` leaves the blocks well grouped |
| Markdown.StepEntries | src/App.jsx:340-347 | one line adds its own classification, and a blank line adds nothing |
| Markdown.StepGood | src/App.jsx:340-347 | one line keeps the loop invariant: blocks well grouped and never ending in a list |
| Markdown.RunKeepsGood | src/App.jsx:340-347 | the line loop keeps that invariant |
| Markdown.RunEntries | src/App.jsx:340-347 | the line loop accounts for every non-blank line in order |
| Markdown.RunConcat | src/App.jsx:340-347 | processing lines in two parts is processing them in one |
| Markdown.BlankLineIgnored | src/App.jsx:346 | a blank line changes nothing and in particular does not end a list |
| Markdown.GroupingIsUnique | src/App.jsx:319-349 | two well-grouped block sequences standing for the same lines are equal, so the rendering is the only such grouping |
| Markdown.ItemCountMatchesMarkers | src/App.jsx:344-345 | the lists hold exactly as many items as there are bullet and numbered lines |

## Left out

- The React component, its state hooks, the charts, tooltips, pathway
  visibility toggles, `labelPositions` and styling: presentation only.
- Loading and saving the configuration (storage, JSON parse/stringify, the
  editor) and `sendAiMessage`: I/O and network. The configuration is a
  parameter.
- `processInline` (bold, italic and code spans inside a line): out of scope.
  Item, heading and paragraph texts are kept as raw strings.
- React `key` attributes and the JSX wrapper `<div>` of `renderMarkdown`:
  presentation only.
- IEEE floating point: loads and levels are exact `real`s, so rounding in
  `0.35 * x` and in repeated `+=` is not modelled.
- Strings are sequences of code points, not UTF-16 code units.
- Configuration values of the wrong JSON type are not modelled: `macros`
  given as numbers, `time` given as a string, items that are `null`, lists
  that are not arrays. Each field has its documented type, or is absent.
- `organ_load` sub-fields that are NaN: only an absent field, read as
  `|| 0`, is modelled.
- Fractional `time` or `morning_offset` values are not modelled: both are
  integers, as the configuration documents them. In the source a fractional
  hour names no `hourlyLoad` key, so a loaded item there makes the
  organ-load computation throw.
- `parseInt` precision above 2^53 is not modelled; results are exact
  integers.
- JsText.IntToString: always writes plain decimal digits. JavaScript's
  `toString` switches to exponent form ("1e+21") from 10^21 upward, where
  `parseInt` no longer inverts it; that range is not modelled. The integers
  the dashboard converts are hour keys in (-24, 25).
- vite.config.js is build configuration and is not part of this model.
- DailyTotals.MacroAmount: its own contract speaks only of blank, absent
  and digit-led fields. What a specific string adds is stated by the lemmas
  `MacroAmountReadsLeadingDigits`, `MacroAmountOfNaN` and
  `MacroAmountRoundTrip`.
- JsText.ParseInt: its own contract is partial. Its meaning on digit
  strings is given by `ParseIntLeadingDigits`, `ParseIntNatToString` and
  `ParseIntIntToString`. The `0x` prefix and signs are modelled, but no
  lemma covers them separately.
