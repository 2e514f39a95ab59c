# Advent of Code runner: a verified model

The runner launches Advent of Code puzzle solutions.

It does one of two things:

- **One day.** It runs the day given on the command line, or today's day of the month.
- **All days.** It runs every registered day in turn. It sums the per-day statistics and builds the rows of a small chart.

Running a day means the following:

- A day that is not yet published this December is skipped.
- Unless tests are skipped, the day's example input is checked against the expected answers, by exact string comparison.
- Unless only the examples are wanted, the real input is run:
  - **Once.** The total time then stands for all four statistics.
  - **`numRuns` times.** The runner then keeps each phase's minimum, maximum, truncated mean and median, and adds the two phases kind by kind.

Each execution runs part 1 on the input, then part 2 on the same input. Part 2 also receives the context part 1 returned. Both phases are timed by three clock readings.

The model has six modules:

| module | file | contents |
|---|---|---|
| `Outcomes` | `outcomes.dfy` | the result of a step that may end in a Go runtime panic |
| `Day` | `day.dfy` | `day.go` as pure functions: the records, the two-phase execution and the example check |
| `Stats` | `stats.dfy` | the folds the repeated-run loop performs, Go's truncating division and the median read, with their bounds |
| `Sorting` | `sorting.dfy` | the in-place sort by answer string, proved equal to a functional insertion sort, a permutation and ordered |
| `Runner` | `runner.dfy` | `runDay` and `Run` as methods over arrays and loops, each proved equal to a specification function |
| `RunnerFacts` | `runner_facts.dfy` | what those specification functions guarantee |

Things that are not values in Go are parameters of the model:

- **The clock** is `now: nat -> int`, read at an explicit cursor:
  - every execution takes readings `k`, `k+1` and `k+2`;
  - `DayOutcome.tick` says how many readings a day's run used.
- **Today's date** is `today`.
- **The input fetcher** is `fetch`, keyed by day number.
- **The solution functions** are fields of `DayImplementation`.

A Go panic is modelled as `Outcome.Panic`, not as a precondition:

- a negative run count makes `make` fail;
- a day number outside 1 to `len(days)` fails the `days` index;
- exactly two runs make the even-count median read `results[N/2+1]`, which is past the end.

Durations are unbounded integers.

## Model

| member | source | states |
|---|---|---|
| `Day.RunDayWithInput` | day.go:59-71 | part 1 runs on the input and part 2 on the same input with part 1's context; both answers are recorded; the two phase times sum to the last reading minus the first, and are non-negative when the readings are ordered |
| `Day.ExecuteDay` | day.go:52-57 | the two phases run on the input fetched for the day's number, with the same answers and time sum |
| `Day.TestDay` | day.go:30-50 | each verdict holds iff there is an example and that phase's answer on it equals the expected answer exactly; an empty example gives the zero result; otherwise the times sum to the elapsed readings |
| `Day.ExampleAndRealDifferOnlyInInput` | day.go:30-57 | the example check runs the same two-phase execution as the real run, on the example input; with equal inputs the results coincide |
| `Stats.GoDiv` | runner.go:201-202 | division by a positive count truncates toward zero, for negative dividends too |
| `Stats.Median` | runner.go:206-210 | reading the median panics exactly when there are two runs; for an odd count it is the middle element |
| `Stats.MaxFoldIsMax` | runner.go:186-188 | the running maximum starting at zero bounds every time, is 0 or one of the times, and is one of them when the times are non-negative |
| `Stats.SentinelMinIsMin` | runner.go:189-191 | with no zero time, the running minimum is one of the times and no larger than any |
| `Stats.ZeroResetsMin` | runner.go:189-191 | when the earlier times are non-negative, after a zero time the minimum is that of the later times alone |
| `Stats.ZeroTimeLiftsMinAboveMean` | runner.go:189-202 | times 5, 0, 3 give minimum 3 and mean 2 |
| `Stats.MeanWithin` | runner.go:198-202 | the truncated mean lies within any bounds of the times |
| `Stats.MedianWithin` | runner.go:206-217 | the median, odd or averaged, lies within any bounds of the times it reads |
| `Stats.CombineOrdered` | runner.go:219 | adding two ordered summaries kind by kind gives an ordered summary |
| `Sorting.SortByAnswer` | runner.go:203-205 | the in-place sort of the results leaves exactly the insertion-sorted sequence by the phase's answer |
| `Sorting.SortByPermutes` | runner.go:203-205 | sorting keeps the same runs with the same multiplicities |
| `Sorting.SortBySorts` | runner.go:203-205 | after sorting no run is followed by one with a smaller answer |
| `Sorting.StrLess` | runner.go:204 | Go's `<` on strings: lexicographic order, a proper prefix first |
| `Sorting.InsertLast` | runner.go:203-205 | one step of the in-place sort moves the next run left past every run with a greater answer, leaving the insertion of that run into the sorted prefix and the rest of the array unchanged |
| `Sorting.SortByKeepsTies` | runner.go:203-205 | when every run has the same answer, the sort leaves the runs in execution order |
| `Sorting.StrLessTransitive` | runner.go:204 | string order is transitive |
| `Sorting.StrLessTotal` | runner.go:204 | distinct strings are ordered one way or the other |
| `Runner.Rejected` | runner.go:52-62 | the refused option combinations: tests both skipped and required, or all days together with a day number |
| `Runner.NotYetPublished` | runner.go:143-146 | a day is skipped when today is in December of the configured year and the day's own number is later than today |
| `Runner.PhaseStats` | runner.go:182-210 | one phase's sentinel minimum, maximum and truncated mean over the runs in execution order, and its median read off the sorted runs |
| `Runner.DayRun` | runner.go:137-223 | a day's run: the slice is made, then the day is looked up, then skipped, tested, returned after the tests or run on the real input, with the clock readings each step uses |
| `Runner.RealInputStats` | runner.go:176-221 | the real-input statistics: one run's total for all four statistics below two runs, otherwise the repeated-run statistics |
| `Runner.RunAt` | runner.go:185 | one execution's two phase times sum to the elapsed readings |
| `Runner.RepeatedStats` | runner.go:203-219 | repeated-run statistics panic exactly for two runs, with the median index as the reason |
| `Runner.RunDay` | runner.go:137-223 | the day's run equals `DayRun`: panics, skip, example check, tests-only return, single or repeated real-input runs, and the readings used |
| `Runner.RunRealInput` | runner.go:176-222 | the real-input part equals `RealInputStats`: one run with its total for all four statistics, or the repeated-run statistics; below two runs the array is untouched, otherwise it ends sorted by part 1's answer and then by part 2's, or only by part 1's when the median read panics |
| `Runner.RepeatedRun` | runner.go:181-221 | filling, folding, sorting twice and reading both medians gives `RepeatedStats` of the runs performed; the array ends holding the runs sorted by part 1's answer and then by part 2's, so its first element is the run whose answers are printed, or only by part 1's when the median read panics |
| `Runner.TimeRuns` | runner.go:182-200 | after the loop, `results` holds the runs in order; each phase's maximum, sentinel minimum and sum are the folds of its times |
| `Runner.Accumulate` | runner.go:186-197 | one step of the running maximum and of the zero-as-unset running minimum |
| `Runner.MedianOf` | runner.go:206-218 | the median read off the sorted array equals `Median` of its times |
| `Runner.RunDays` | runner.go:75-76 | days 1 to n run in order, and a completed run of days yields one statistics record per day |
| `Runner.PanicPersists` | runner.go:75-76 | a panic on one day ends every longer run of days with the same panic |
| `Runner.RunNextDay` | runner.go:75-76 | running the next day either panics the whole run or extends it by the day's statistics |
| `Runner.Tally` | runner.go:77-94 | recording one more day writes its median into `times` and leaves the later slots unchanged, adds each kind to the totals, keeps the largest median, and adds one column to the axis and both label rows |
| `Runner.TotalsStep` | runner.go:77-84 | one more day adds its statistics kind by kind to the totals, appends its median, and steps the running maximum |
| `Runner.TopLabel` | runner.go:86-92 | the upper label byte of a day: its tens digit, or its units digit below ten, added to `'0'` with byte wrap-around |
| `Runner.BottomLabel` | runner.go:86-93 | the lower label byte of a day: its units digit added to `'0'`, or a space below ten |
| `Runner.WriteLabels` | runner.go:86-94 | the label bytes written for a day are its upper and lower labels |
| `Runner.RunAllDays` | runner.go:70-95 | the all-days loop yields every day's median, the per-kind totals, the largest median and the three chart rows of the completed run of days, or the first panic |
| `Runner.ReportOf` | runner.go:71-95 | the all-days report of completed days: each day's median, the per-kind totals, the largest median and the three chart rows |
| `Runner.RunSpec` | runner.go:52-127 | the whole program: refused options, then either every day in order or the chosen day, today's day of the month when none is given |
| `Runner.ExitStatus` | runner.go:52-62 | status 1 after the usage text, as `os.Exit(1)` sets it, 2 after a Go panic, and 0 otherwise |
| `Runner.Run` | runner.go:52-127 | the whole program equals `RunSpec`: refused options, the all-days report or the chosen day's run |
| `RunnerFacts.RejectedExactly` | runner.go:52-62 | the usage error, exit status 1, happens iff tests are both skipped and required, or all days and a day are both given; a panic exits with 2 |
| `RunnerFacts.DefaultDayIsToday` | runner.go:122-126 | with no day given, the run is that of today's day of the month |
| `RunnerFacts.DayPanicsExactly` | runner.go:141-218 | a day's run panics iff the run count is negative, the day number is outside 1 to `len(days)`, or exactly two real-input runs are due on a published day; the negative count is reported first |
| `RunnerFacts.SkippedDay` | runner.go:146-150 | an unpublished day gives zero statistics, no verdicts and no clock reading |
| `RunnerFacts.TestsOnlyDay` | runner.go:152-173 | tests-only mode gives zero statistics; the examples run, using three readings, iff the day is published, has an example and tests are not skipped |
| `RunnerFacts.NothingExecutesExactly` | runner.go:146-177 | no clock reading is taken iff the day is skipped, or only the examples are wanted and they do not run |
| `RunnerFacts.SingleRunStats` | runner.go:176-180 | with fewer than two runs, minimum, maximum, median and mean all equal the single run's total time |
| `RunnerFacts.ClockOrdersTimes` | day.go:60-67 | a clock that never goes back gives non-negative phase times; one that always advances gives positive ones |
| `RunnerFacts.PhaseStatsBounds` | runner.go:182-218 | for any count other than two and positive times, a phase's minimum and maximum are the true extremes, and the median and mean lie between them, for any order of the runs |
| `RunnerFacts.PhaseStatsUpperBounds` | runner.go:182-218 | for any count other than two and non-negative times, the maximum is the largest time and bounds the median and mean, and the minimum is non-negative |
| `RunnerFacts.MedianIsObserved` | runner.go:203-218 | for any count other than two and any order of the runs, an odd count's median is an observed time, and an even count's is the truncated average of two observed times |
| `RunnerFacts.TotalsArePhaseSums` | runner.go:219 | each repeated-run total is the sum of the two phases' statistics of the same kind |
| `RunnerFacts.RepeatedStatsBounds` | runner.go:182-221 | with three or more runs and positive times, the totals are ordered, the minimum is positive, and every run's total time lies between the total minimum and maximum |
| `RunnerFacts.TiedAnswersMedianIsMiddleRun` | runner.go:203-210 | when all part 1 answers agree, the part 1 median is the time of the middle run in execution order for an odd count, and for an even count of four or more the truncated average of runs N/2 and N/2+1 in execution order |
| `RunnerFacts.InOrderMedian` | runner.go:206-210 | for three or more runs read off in execution order, the part 1 median is run N/2's time for an odd count and the truncated average of runs N/2 and N/2+1 for an even one |
| `RunnerFacts.DayStatsOrdered` | runner.go:137-223 | on an advancing clock, a completed day's statistics are ordered, and positive when the real input ran |
| `RunnerFacts.RunDaysCollects` | runner.go:75-76 | each collected record is the statistics of that day's run, started where the previous day left the clock |
| `RunnerFacts.ReportTimesAreDayMedians` | runner.go:71-95 | the report holds one median per day, each day's own median; the totals sum each kind over the days; the chart rows have one byte per day |
| `RunnerFacts.ReportScale` | runner.go:82-84 | the largest median bounds every day's median, is non-negative, and is zero or some day's median |
| `RunnerFacts.TotalsOrdered` | runner.go:78-81 | totals of ordered records are ordered |
| `RunnerFacts.ReportTotalsOrdered` | runner.go:72-81 | on an advancing clock the all-days totals are ordered |
| `RunnerFacts.LabelsSpellDayNumber` | runner.go:85-94 | for days 1 to 99 the labels are ASCII digits: the upper row holds the tens digit and the lower row the units digit; a day below ten has its digit above a space |

## Left out

- Console output, ANSI colouring and logging are presentation only.
- The float histogram (runner.go:104-114) is floating point. The model supplies its inputs: the medians and the largest median.
- Flag parsing, `os.Exit` and CPU profiling are left out. The parsed options are the `Flags` value, and the exit status is `ExitStatus`.
- `RunnerFacts.DayPanicsExactly` is exact for the model only. The fetcher's own panics (input_fetcher.go:22, 27, 33, 36: a failed HTTP request, body read, file write or file read) are not `PanicReason` cases, because `fetch` is a total parameter.
- `Sorting.StrLess` compares sequences of Unicode scalar values, while Go's `<` compares strings byte by byte. The two orders agree when the answers are valid UTF-8; the model does not capture answers that are not.
- The answer line printed from `results[0]` (runner.go:220) is output. `Runner.RepeatedRun` states which run the array holds there.
- `time.Now` is the `now` parameter for durations and the `today` parameter for dates.
  - A single `today` stands for both date lookups, in `Run` and in `runDay`.
  - A clock change between the lookups is not modelled.
- `environment.go` and `input_fetcher.go` are session handling, the disk cache and HTTP. They are not part of this model. The fetched input is the `fetch` parameter.
- `_template.go` is a fill-in template and is not part of this model.
- `strconv.Atoi` turns an unparsable year into 0. The model takes the year as an integer.
- The solution functions are total pure functions of their inputs.
- Durations are unbounded. The model does not capture `int64` overflow of the sums or saturation in `time.Sub`.
- `Sorting.SortByAnswer` models `sort.Slice` as insertion sort, which is what Go's sort performs for up to 12 elements.
  - For longer slices Go's pattern-defeating quicksort may order runs with equal answers differently.
  - The median-bound lemmas (`RunnerFacts.PhaseStatsBounds`, `RunnerFacts.MedianIsObserved`) hold for every permutation, so they cover that case.
- `Stats.SentinelMinIsMin` and `RunnerFacts.PhaseStatsBounds` require non-zero, respectively positive, times.
  - Zero is the loop's "unset" marker, so when the earlier times are non-negative a zero-duration run makes the next time the minimum.
  - `Stats.ZeroResetsMin` and `Stats.ZeroTimeLiftsMinAboveMean` state what happens then.
- The code orders the runs by answer string, not by duration, before reading the median. For an even count it averages indices N/2 and N/2+1.
  - A median of times would sort by time and average N/2-1 and N/2.
  - The model follows the code. `RunnerFacts.TiedAnswersMedianIsMiddleRun` and `RunnerFacts.DayPanicsExactly` show the consequences.
