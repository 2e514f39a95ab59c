/** The runner: one day's run with its repeated-run statistics, the run of
    every day with its totals and chart labels, and the flag checks. */
module Runner {
  import opened Outcomes
  import opened Day
  import opened Stats
  import opened Sorting

  /** A calendar date as the clock reports it. */
  datatype Date = Date(year: int, month: int, day: int)

  /** What the runner works against: the registered days in order, the event
      year, today's date, the input fetcher (by day number) and the monotonic
      clock, whose k-th reading is `now(k)`. */
  datatype Env<!C> = Env(
    days: seq<DayImplementation<C>>,
    year: int,
    today: Date,
    fetch: int -> string,
    now: nat -> int)

  /** The command-line options after parsing. */
  datatype Flags = Flags(
    allDays: bool,
    skipTests: bool,
    testsOnly: bool,
    profiling: bool,
    specificDay: int,
    numRuns: int)

  /** The option combinations the runner refuses with its usage text. */
  predicate Rejected(flags: Flags) {
    (flags.skipTests && flags.testsOnly) || (flags.allDays && flags.specificDay > 0)
  }

  /** A day of this year's December that has not come yet. */
  predicate NotYetPublished(today: Date, year: int, dayNumber: int) {
    today.year == year && today.month == 12 && today.day < dayNumber
  }

  /** A clock whose readings never go back. */
  ghost predicate Monotone(now: nat -> int) {
    forall i: nat, j: nat :: i <= j ==> now(i) <= now(j)
  }

  /** A clock whose readings always move forward. */
  ghost predicate StrictlyIncreasing(now: nat -> int) {
    forall i: nat, j: nat :: i < j ==> now(i) < now(j)
  }

  /** What one day's run leaves behind: its statistics, the example verdicts
      when the examples ran, and how many clock readings have been taken. */
  datatype DayOutcome = DayOutcome(stats: RunStats, tested: Option<TestResult>, tick: nat)

  /** One execution on the real input, timed by clock readings k, k+1, k+2. */
  function RunAt<C>(env: Env<C>, day: DayImplementation<C>, k: nat): (r: DayResult)
    ensures r.part1Time + r.part2Time == env.now(k + 2) - env.now(k)
  {
    ExecuteDay(day, env.fetch, env.now(k), env.now(k + 1), env.now(k + 2))
  }

  /** `n` executions one after another, starting at clock reading k. */
  function Runs<C>(env: Env<C>, day: DayImplementation<C>, k: nat, n: nat): (rs: seq<DayResult>)
    ensures |rs| == n
  {
    seq(n, i requires 0 <= i < n => RunAt(env, day, k + 3 * i))
  }

  lemma RunsAt<C>(env: Env<C>, day: DayImplementation<C>, k: nat, n: nat, i: nat)
    requires i < n
    ensures Runs(env, day, k, n)[i] == RunAt(env, day, k + 3 * i)
  {
  }

  /** One phase's statistics over `runs`, with the median read from `sorted`. */
  function PhaseStats(runs: seq<DayResult>, sorted: seq<DayResult>, p: Part): Outcome<RunStats>
    requires 0 < |runs| == |sorted|
  {
    var ts := Times(runs, p);
    match Median(Times(sorted, p))
    case Panic(why) => Panic(why)
    case Done(median) => Done(RunStats(SentinelMin(ts), MaxFold(ts), median, Mean(ts)))
  }

  /** The statistics of repeated runs: the runs are ordered by part 1's
      answer for part 1's median, then by part 2's answer for part 2's. */
  function RepeatedStats(runs: seq<DayResult>): (r: Outcome<RunStats>)
    requires |runs| >= 2
    ensures r.Panic? <==> |runs| == 2
    ensures r.Panic? ==> r.reason == MedianIndexOutOfRange
  {
    var byPart1 := SortBy(runs, Part1);
    var byPart2 := SortBy(byPart1, Part2);
    SortByPermutes(runs, Part1);
    SortByPermutes(byPart1, Part2);
    match PhaseStats(runs, byPart1, Part1)
    case Panic(why) => Panic(why)
    case Done(p1) =>
      match PhaseStats(runs, byPart2, Part2)
      case Panic(why) => Panic(why)
      case Done(p2) => Done(Combine(p1, p2))
  }

  lemma RepeatedStatsDone(runs: seq<DayResult>, p1: RunStats, p2: RunStats)
    requires |runs| >= 2
    requires |SortBy(runs, Part1)| == |SortBy(SortBy(runs, Part1), Part2)| == |runs|
    requires PhaseStats(runs, SortBy(runs, Part1), Part1) == Done(p1)
    requires PhaseStats(runs, SortBy(SortBy(runs, Part1), Part2), Part2) == Done(p2)
    ensures RepeatedStats(runs) == Done(Combine(p1, p2))
  {
  }

  /** One day's run, starting with `tick` clock readings already taken. */
  function DayRun<C>(env: Env<C>, dayNumber: int, numRuns: int, skipTests: bool, testsOnly: bool,
                     tick: nat): Outcome<DayOutcome>
  {
    if numRuns < 0 then Panic(NegativeSliceLength)
    else if !(1 <= dayNumber <= |env.days|) then Panic(DayIndexOutOfRange)
    else
      var day := env.days[dayNumber - 1];
      if NotYetPublished(env.today, env.year, day.dayNumber) then Done(DayOutcome(NoStats, None, tick))
      else
        var runTests := day.exampleInput != "" && !skipTests;
        var tested := if runTests then Some(TestDay(day, env.now(tick), env.now(tick + 1), env.now(tick + 2)))
                      else None;
        var k := if runTests then tick + 3 else tick;
        if testsOnly then Done(DayOutcome(NoStats, tested, k))
        else
          var stats := RealInputStats(env, day, numRuns, k);
          if stats.Panic? then Panic(stats.reason)
          else Done(DayOutcome(stats.value, tested, k + 3 * Executions(numRuns)))
  }

  /** How many times the real input is run for a given run count. */
  function Executions(numRuns: int): nat {
    if numRuns < 2 then 1 else numRuns
  }

  /** The statistics of the real-input runs, starting at clock reading k:
      one run whose total stands for all four statistics, or repeated runs. */
  function RealInputStats<C>(env: Env<C>, day: DayImplementation<C>, numRuns: int, k: nat): Outcome<RunStats>
  {
    if numRuns < 2 then
      var res := RunAt(env, day, k);
      var total := res.part1Time + res.part2Time;
      Done(RunStats(total, total, total, total))
    else
      RepeatedStats(Runs(env, day, k, numRuns))
  }

  /** Runs day `dayNumber`: skips it when it is not published yet, checks the
      examples unless told not to, and unless only the examples are wanted
      runs the real input once or `numRuns` times and summarises the times. */
  method RunDay<C>(env: Env<C>, dayNumber: int, numRuns: int, skipTests: bool, testsOnly: bool, tick: nat)
    returns (out: Outcome<DayOutcome>)
    ensures out == DayRun(env, dayNumber, numRuns, skipTests, testsOnly, tick)
  {
    if numRuns < 0 {
      return Panic(NegativeSliceLength);
    }
    var results := new DayResult[numRuns];
    if !(1 <= dayNumber <= |env.days|) {
      return Panic(DayIndexOutOfRange);
    }
    var day := env.days[dayNumber - 1];
    if NotYetPublished(env.today, env.year, day.dayNumber) {
      return Done(DayOutcome(NoStats, None, tick));
    }
    var k := tick;
    var tested := None;
    if day.exampleInput != "" && !skipTests {
      tested := Some(TestDay(day, env.now(k), env.now(k + 1), env.now(k + 2)));
      k := k + 3;
    }
    if testsOnly {
      return Done(DayOutcome(NoStats, tested, k));
    }
    var stats := RunRealInput(env, day, k, results);
    if stats.Panic? {
      return Panic(stats.reason);
    }
    return Done(DayOutcome(stats.value, tested, k + 3 * Executions(numRuns)));
  }

  /** The real-input part of a day's run: a single timed run when fewer
      than two runs are asked for, otherwise one run per slot of `results`. */
  method RunRealInput<C>(env: Env<C>, day: DayImplementation<C>, k: nat, results: array<DayResult>)
    returns (out: Outcome<RunStats>)
    modifies results
    ensures out == RealInputStats(env, day, results.Length, k)
    ensures results.Length < 2 ==> results[..] == old(results[..])
    ensures results.Length >= 2 && out.Done? ==>
              results[..] == SortBy(SortBy(Runs(env, day, k, results.Length), Part1), Part2)
    ensures results.Length >= 2 && out.Panic? ==> results[..] == SortBy(Runs(env, day, k, results.Length), Part1)
  {
    var numRuns := results.Length;
    if numRuns < 2 {
      var res := ExecuteDay(day, env.fetch, env.now(k), env.now(k + 1), env.now(k + 2));
      var total := res.part1Time + res.part2Time;
      return Done(RunStats(total, total, total, total));
    }
    out := RepeatedRun(env, day, k, results);
  }

  /** The repeated-run branch of a day's run: one execution per slot of
      `results`, the per-phase folds and means, then for each phase a sort
      by that phase's answer and the median read off the sorted runs. */
  method RepeatedRun<C>(env: Env<C>, day: DayImplementation<C>, k: nat, results: array<DayResult>)
    returns (out: Outcome<RunStats>)
    requires results.Length >= 2
    modifies results
    ensures out == RepeatedStats(Runs(env, day, k, results.Length))
    ensures out.Done? ==> results[..] == SortBy(SortBy(Runs(env, day, k, results.Length), Part1), Part2)
    ensures out.Panic? ==> results[..] == SortBy(Runs(env, day, k, results.Length), Part1)
  {
    var numRuns := results.Length;
    var p1Aggregate, p2Aggregate, p1Total, p2Total := TimeRuns(env, day, k, results);
    ghost var runs := results[..];
    assert runs == Runs(env, day, k, numRuns);
    p1Aggregate := p1Aggregate.(mean := GoDiv(p1Total, numRuns));
    p2Aggregate := p2Aggregate.(mean := GoDiv(p2Total, numRuns));
    SortByAnswer(results, Part1);
    ghost var byPart1 := results[..];
    SortByPermutes(runs, Part1);
    var median1 := MedianOf(results, Part1);
    if median1.Panic? {
      assert RepeatedStats(runs).Panic?;
      return Panic(median1.reason);
    }
    p1Aggregate := p1Aggregate.(median := median1.value);
    assert PhaseStats(runs, byPart1, Part1) == Done(p1Aggregate);
    SortByAnswer(results, Part2);
    assert results[..] == SortBy(SortBy(runs, Part1), Part2);
    SortByPermutes(byPart1, Part2);
    var median2 := MedianOf(results, Part2);
    assert median2.Done?;
    p2Aggregate := p2Aggregate.(median := median2.value);
    assert PhaseStats(runs, results[..], Part2) == Done(p2Aggregate);
    RepeatedStatsDone(runs, p1Aggregate, p2Aggregate);
    var totals := Combine(p1Aggregate, p2Aggregate);
    return Done(totals);
  }

  /** Executes the day once per slot of `results`, filling the slots in
      order, and keeps for each phase the running maximum, the running
      minimum (0 meaning "unset") and the sum of the times. */
  method TimeRuns<C>(env: Env<C>, day: DayImplementation<C>, k: nat, results: array<DayResult>)
    returns (p1Aggregate: RunStats, p2Aggregate: RunStats, p1Total: int, p2Total: int)
    modifies results
    ensures results[..] == Runs(env, day, k, results.Length)
    ensures p1Aggregate == RunStats(SentinelMin(Times(results[..], Part1)), MaxFold(Times(results[..], Part1)), 0, 0)
    ensures p2Aggregate == RunStats(SentinelMin(Times(results[..], Part2)), MaxFold(Times(results[..], Part2)), 0, 0)
    ensures p1Total == Sum(Times(results[..], Part1))
    ensures p2Total == Sum(Times(results[..], Part2))
  {
    p1Aggregate, p2Aggregate := NoStats, NoStats;
    p1Total, p2Total := 0, 0;
    ghost var runs := Runs(env, day, k, results.Length);
    for i := 0 to results.Length
      invariant results[..i] == runs[..i]
      invariant p1Aggregate == RunStats(SentinelMin(Times(runs[..i], Part1)), MaxFold(Times(runs[..i], Part1)), 0, 0)
      invariant p2Aggregate == RunStats(SentinelMin(Times(runs[..i], Part2)), MaxFold(Times(runs[..i], Part2)), 0, 0)
      invariant p1Total == Sum(Times(runs[..i], Part1))
      invariant p2Total == Sum(Times(runs[..i], Part2))
    {
      results[i] := RunAt(env, day, k + 3 * i);
      RunsAt(env, day, k, results.Length, i);
      assert runs[..i + 1] == runs[..i] + [runs[i]];
      TimesAppend(runs[..i], results[i]);
      FoldsStep(Times(runs[..i], Part1), results[i].part1Time);
      FoldsStep(Times(runs[..i], Part2), results[i].part2Time);
      p1Aggregate := Accumulate(p1Aggregate, results[i].part1Time);
      p2Aggregate := Accumulate(p2Aggregate, results[i].part2Time);
      p1Total := p1Total + results[i].part1Time;
      p2Total := p2Total + results[i].part2Time;
    }
    assert runs[..results.Length] == runs;
  }

  /** Folds one phase time into the running maximum and the running
      minimum, where a minimum of zero means none has been seen yet. */
  method Accumulate(aggregate: RunStats, t: int) returns (next: RunStats)
    ensures next == aggregate.(max := StepMax(aggregate.max, t), min := StepMin(aggregate.min, t))
  {
    next := aggregate;
    if t > next.max {
      next := next.(max := t);
    }
    if next.min == 0 || t < next.min {
      next := next.(min := t);
    }
  }

  /** Reads phase `p`'s median off runs already in order: the time at index
      n/2, averaged for even n with the time at n/2+1. */
  method MedianOf(results: array<DayResult>, p: Part) returns (m: Outcome<int>)
    requires results.Length > 0
    ensures m == Median(Times(results[..], p))
  {
    var n := results.Length;
    var median := Time(results[n / 2], p);
    if n % 2 == 0 {
      if n / 2 + 1 >= n {
        return Panic(MedianIndexOutOfRange);
      }
      median := median + Time(results[n / 2 + 1], p);
      median := GoDiv(median, 2);
    }
    return Done(median);
  }

  /** A byte, as `strings.Builder.WriteByte` appends it. */
  newtype byte = x: int | 0 <= x < 256

  /** Go's conversion of a non-negative integer to `byte`: the low eight bits. */
  function ToByte(x: nat): byte {
    (x % 256) as byte
  }

  /** Go's `+` on bytes, which wraps around. */
  function AddBytes(a: byte, b: byte): byte {
    ((a as int + b as int) % 256) as byte
  }

  const Dash: byte := 45
  const Space: byte := 32
  const DigitZero: byte := 48

  /** The label of day `d` in the upper row: its tens digit, or for a day
      below ten its only digit. */
  function TopLabel(d: nat): byte {
    if ToByte(d / 10) > 0 then AddBytes(ToByte(d / 10), DigitZero) else AddBytes(ToByte(d % 10), DigitZero)
  }

  /** The label of day `d` in the lower row: its units digit, or a space for
      a day below ten. */
  function BottomLabel(d: nat): byte {
    if ToByte(d / 10) > 0 then AddBytes(ToByte(d % 10), DigitZero) else Space
  }

  /** The chart's axis for `n` days and its two label rows. */
  function AxisRow(n: nat): seq<byte> {
    seq(n, ix => Dash)
  }

  function TopRow(n: nat): seq<byte> {
    seq(n, ix requires 0 <= ix < n => TopLabel(ix + 1))
  }

  function BottomRow(n: nat): seq<byte> {
    seq(n, ix requires 0 <= ix < n => BottomLabel(ix + 1))
  }

  /** The columns of a sequence of statistics, one per kind. */
  function Mins(ss: seq<RunStats>): seq<int> {
    seq(|ss|, i requires 0 <= i < |ss| => ss[i].min)
  }

  function Maxes(ss: seq<RunStats>): seq<int> {
    seq(|ss|, i requires 0 <= i < |ss| => ss[i].max)
  }

  function Medians(ss: seq<RunStats>): seq<int> {
    seq(|ss|, i requires 0 <= i < |ss| => ss[i].median)
  }

  function Means(ss: seq<RunStats>): seq<int> {
    seq(|ss|, i requires 0 <= i < |ss| => ss[i].mean)
  }

  /** The grand totals: each kind of statistic summed over the days. */
  function Totals(ss: seq<RunStats>): RunStats {
    RunStats(Sum(Mins(ss)), Sum(Maxes(ss)), Sum(Medians(ss)), Sum(Means(ss)))
  }

  /** Days 1 to n run one after another from the first clock reading; the
      statistics of each and the clock readings taken, or the first panic. */
  function RunDays<C>(env: Env<C>, flags: Flags, n: nat): (r: Outcome<(seq<RunStats>, nat)>)
    requires n <= |env.days|
    ensures r.Done? ==> |r.value.0| == n
  {
    if n == 0 then Done(([], 0))
    else
      var before := RunDays(env, flags, n - 1);
      if before.Panic? then Panic(before.reason)
      else
        var day := DayRun(env, n, flags.numRuns, flags.skipTests, flags.testsOnly, before.value.1);
        if day.Panic? then Panic(day.reason)
        else Done((before.value.0 + [day.value.stats], day.value.tick))
  }

  /** What the all-days mode collects: every day's median, the totals, the
      largest median, and the chart's axis and label rows. */
  datatype Report = Report(
    times: seq<int>,
    totals: RunStats,
    maxTime: int,
    axis: seq<byte>,
    tensRow: seq<byte>,
    unitsRow: seq<byte>)

  /** How the program ends: refused options, the all-days report, one day's
      outcome, or a runtime panic. */
  datatype RunOutcome =
    | UsageError
    | AllDays(report: Report)
    | OneDay(outcome: DayOutcome)
    | Crashed(reason: PanicReason)

  /** The process exit status: 1 for refused options, 2 for a Go panic. */
  function ExitStatus(o: RunOutcome): int {
    match o
    case UsageError => 1
    case Crashed(_) => 2
    case _ => 0
  }

  function ReportOf(ss: seq<RunStats>): Report {
    Report(Medians(ss), Totals(ss), MaxFold(Medians(ss)), AxisRow(|ss|), TopRow(|ss|), BottomRow(|ss|))
  }

  /** The whole program for given options: refuse, run every day, or run the
      chosen day (today's day of the month when none is given). */
  function RunSpec<C>(env: Env<C>, flags: Flags): RunOutcome {
    if Rejected(flags) then UsageError
    else if flags.allDays then
      var all := RunDays(env, flags, |env.days|);
      if all.Panic? then Crashed(all.reason) else AllDays(ReportOf(all.value.0))
    else
      var dayNumber := if flags.specificDay == 0 then env.today.day else flags.specificDay;
      var one := DayRun(env, dayNumber, flags.numRuns, flags.skipTests, flags.testsOnly, 0);
      if one.Panic? then Crashed(one.reason) else OneDay(one.value)
  }

  /** A panic on some day ends every longer sequence of days with it. */
  lemma {:induction false} PanicPersists<C>(env: Env<C>, flags: Flags, m: nat, n: nat)
    requires m <= n <= |env.days|
    requires RunDays(env, flags, m).Panic?
    ensures RunDays(env, flags, n).Panic? && RunDays(env, flags, n).reason == RunDays(env, flags, m).reason
  {
    if m < n {
      PanicPersists(env, flags, m, n - 1);
      PanicStep(env, flags, n);
    }
  }

  lemma PanicStep<C>(env: Env<C>, flags: Flags, n: nat)
    requires 0 < n <= |env.days|
    requires RunDays(env, flags, n - 1).Panic?
    ensures RunDays(env, flags, n).Panic? && RunDays(env, flags, n).reason == RunDays(env, flags, n - 1).reason
  {
  }

  /** Checks the options, then runs every day or the one chosen day. */
  method Run<C>(env: Env<C>, flags: Flags) returns (out: RunOutcome)
    ensures out == RunSpec(env, flags)
  {
    if flags.skipTests && flags.testsOnly {
      return UsageError;
    }
    if flags.allDays && flags.specificDay > 0 {
      return UsageError;
    }
    if flags.allDays {
      out := RunAllDays(env, flags);
      return;
    }
    var dayNumber := flags.specificDay;
    if dayNumber == 0 {
      dayNumber := env.today.day;
    }
    var result := RunDay(env, dayNumber, flags.numRuns, flags.skipTests, flags.testsOnly, 0);
    if result.Panic? {
      return Crashed(result.reason);
    }
    return OneDay(result.value);
  }

  /** Runs every day in order, collecting each day's median, the totals,
      the largest median and the chart rows. */
  method RunAllDays<C>(env: Env<C>, flags: Flags) returns (out: RunOutcome)
    ensures var all := RunDays(env, flags, |env.days|);
            out == if all.Panic? then Crashed(all.reason) else AllDays(ReportOf(all.value.0))
  {
    var times := new int[|env.days|];
    var totals := NoStats;
    var maxTime := 0;
    var axis, tensRow, unitsRow := [], [], [];
    var tick: nat := 0;
    ghost var done: seq<RunStats> := [];
    for ix := 0 to |env.days|
      invariant RunDays(env, flags, ix) == Done((done, tick))
      invariant times[..ix] == Medians(done)
      invariant totals == Totals(done)
      invariant maxTime == MaxFold(Medians(done))
      invariant axis == AxisRow(ix) && tensRow == TopRow(ix) && unitsRow == BottomRow(ix)
    {
      var result := RunNextDay(env, flags, ix, done, tick);
      if result.Panic? {
        return Crashed(result.reason);
      }
      var stats := result.value.stats;
      totals, maxTime, axis, tensRow, unitsRow := Tally(times, ix, done, stats, totals, maxTime, axis, tensRow, unitsRow);
      done := done + [stats];
      tick := result.value.tick;
    }
    return AllDays(Report(times[..], totals, maxTime, axis, tensRow, unitsRow));
  }

  /** Records day `ix + 1`'s statistics: its median in `times`, each kind
      added to the totals, the largest median so far, and one column of the
      axis and of both label rows. */
  method Tally(times: array<int>, ix: nat, ghost done: seq<RunStats>, stats: RunStats,
               totals: RunStats, maxTime: int, axis: seq<byte>, tensRow: seq<byte>, unitsRow: seq<byte>)
    returns (totals': RunStats, maxTime': int, axis': seq<byte>, tensRow': seq<byte>, unitsRow': seq<byte>)
    requires ix < times.Length
    requires times[..ix] == Medians(done)
    requires totals == Totals(done) && maxTime == MaxFold(Medians(done))
    requires axis == AxisRow(ix) && tensRow == TopRow(ix) && unitsRow == BottomRow(ix)
    modifies times
    ensures times[..ix + 1] == Medians(done + [stats])
    ensures times[ix + 1..] == old(times[ix + 1..])
    ensures totals' == Totals(done + [stats]) && maxTime' == MaxFold(Medians(done + [stats]))
    ensures axis' == AxisRow(ix + 1) && tensRow' == TopRow(ix + 1) && unitsRow' == BottomRow(ix + 1)
  {
    TotalsStep(done, stats);
    RowsStep(ix);
    times[ix] := stats.median;
    totals' := Combine(totals, stats);
    maxTime' := maxTime;
    if stats.median > maxTime' {
      maxTime' := stats.median;
    }
    axis' := axis + [Dash];
    tensRow', unitsRow' := WriteLabels(ix + 1, tensRow, unitsRow);
  }

  /** Appends the two label bytes of day `d` to the label rows. */
  method WriteLabels(d: nat, tensRow: seq<byte>, unitsRow: seq<byte>) returns (tens': seq<byte>, units': seq<byte>)
    ensures tens' == tensRow + [TopLabel(d)] && units' == unitsRow + [BottomLabel(d)]
  {
    var tensDigit := ToByte(d / 10);
    var unitsDigit := ToByte(d % 10);
    if tensDigit > 0 {
      tens' := tensRow + [AddBytes(tensDigit, DigitZero)];
      units' := unitsRow + [AddBytes(unitsDigit, DigitZero)];
    } else {
      tens' := tensRow + [AddBytes(unitsDigit, DigitZero)];
      units' := unitsRow + [Space];
    }
  }

  /** Runs day `ix + 1` after the first `ix` days: a panic ends the whole
      run of days, anything else extends it by this day's outcome. */
  method RunNextDay<C>(env: Env<C>, flags: Flags, ix: nat, ghost done: seq<RunStats>, tick: nat)
    returns (result: Outcome<DayOutcome>)
    requires ix < |env.days|
    requires RunDays(env, flags, ix) == Done((done, tick))
    ensures result.Panic? ==> RunDays(env, flags, |env.days|) == Panic(result.reason)
    ensures result.Done? ==> RunDays(env, flags, ix + 1) == Done((done + [result.value.stats], result.value.tick))
  {
    result := RunDay(env, ix + 1, flags.numRuns, flags.skipTests, flags.testsOnly, tick);
    RunDaysStep(env, flags, ix, done, tick);
    if result.Panic? {
      PanicPersists(env, flags, ix + 1, |env.days|);
    }
  }

  /** One more day extends the run of days by that day's outcome. */
  lemma RunDaysStep<C>(env: Env<C>, flags: Flags, ix: nat, done: seq<RunStats>, tick: nat)
    requires ix < |env.days|
    requires RunDays(env, flags, ix) == Done((done, tick))
    ensures var day := DayRun(env, ix + 1, flags.numRuns, flags.skipTests, flags.testsOnly, tick);
            RunDays(env, flags, ix + 1)
            == if day.Panic? then Panic(day.reason) else Done((done + [day.value.stats], day.value.tick))
  {
  }

  lemma TotalsStep(ss: seq<RunStats>, s: RunStats)
    ensures Medians(ss + [s]) == Medians(ss) + [s.median]
    ensures Totals(ss + [s]) == Combine(Totals(ss), s)
    ensures MaxFold(Medians(ss + [s])) == StepMax(MaxFold(Medians(ss)), s.median)
  {
    assert Mins(ss + [s]) == Mins(ss) + [s.min];
    assert Maxes(ss + [s]) == Maxes(ss) + [s.max];
    assert Medians(ss + [s]) == Medians(ss) + [s.median];
    assert Means(ss + [s]) == Means(ss) + [s.mean];
    FoldsStep(Mins(ss), s.min);
    FoldsStep(Maxes(ss), s.max);
    FoldsStep(Medians(ss), s.median);
    FoldsStep(Means(ss), s.mean);
  }

  lemma RowsStep(ix: nat)
    ensures AxisRow(ix + 1) == AxisRow(ix) + [Dash]
    ensures TopRow(ix + 1) == TopRow(ix) + [TopLabel(ix + 1)]
    ensures BottomRow(ix + 1) == BottomRow(ix) + [BottomLabel(ix + 1)]
  {
  }
}
