/** What the runner guarantees: which option combinations are refused, when
    a day's run panics, skips or executes nothing, what a single run
    reports, the bounds the repeated-run statistics keep, and what the
    all-days report holds. */
module RunnerFacts {
  import opened Outcomes
  import opened Day
  import opened Stats
  import opened Sorting
  import opened Runner

  // ---------------------------------------------------------------------
  // Options

  /** The usage text appears exactly for the refused combinations, and only
      then is the exit status 1; a panic exits with status 2. */
  lemma RejectedExactly<C>(env: Env<C>, flags: Flags)
    ensures RunSpec(env, flags) == UsageError <==> Rejected(flags)
    ensures ExitStatus(RunSpec(env, flags)) == 1 <==> Rejected(flags)
    ensures RunSpec(env, flags).Crashed? ==> ExitStatus(RunSpec(env, flags)) == 2
  {
  }

  /** Without a day number the runner runs today's day of the month. */
  lemma DefaultDayIsToday<C>(env: Env<C>, flags: Flags)
    requires !flags.allDays && flags.specificDay == 0
    ensures RunSpec(env, flags) == RunSpec(env, flags.(specificDay := env.today.day))
  {
  }

  // ---------------------------------------------------------------------
  // One day

  /** A day's run panics exactly when the run count is negative, the day
      number is outside 1 to `|env.days|`, or exactly two real-input runs are due (the
      even-count median reads one index past the end). The negative count is
      reported first, as the slice is made before the day is looked up. */
  lemma DayPanicsExactly<C>(env: Env<C>, dayNumber: int, numRuns: int, skipTests: bool, testsOnly: bool,
                            tick: nat)
    ensures DayRun(env, dayNumber, numRuns, skipTests, testsOnly, tick).Panic? <==>
              numRuns < 0 || !(1 <= dayNumber <= |env.days|) ||
              (1 <= dayNumber <= |env.days| && numRuns == 2 && !testsOnly &&
               !NotYetPublished(env.today, env.year, env.days[dayNumber - 1].dayNumber))
    ensures numRuns < 0 ==> DayRun(env, dayNumber, numRuns, skipTests, testsOnly, tick) == Panic(NegativeSliceLength)
    ensures 0 <= numRuns && !(1 <= dayNumber <= |env.days|) ==>
              DayRun(env, dayNumber, numRuns, skipTests, testsOnly, tick) == Panic(DayIndexOutOfRange)
  {
    if 0 <= numRuns && 1 <= dayNumber <= |env.days| && 2 <= numRuns {
      var day := env.days[dayNumber - 1];
      var k := if day.exampleInput != "" && !skipTests then tick + 3 else tick;
      assert |Runs(env, day, k, numRuns)| == numRuns;
    }
  }

  /** A day not yet published this December runs nothing: zero statistics,
      no verdicts, no clock reading taken. */
  lemma SkippedDay<C>(env: Env<C>, dayNumber: int, numRuns: int, skipTests: bool, testsOnly: bool, tick: nat)
    requires 0 <= numRuns && 1 <= dayNumber <= |env.days|
    requires NotYetPublished(env.today, env.year, env.days[dayNumber - 1].dayNumber)
    ensures DayRun(env, dayNumber, numRuns, skipTests, testsOnly, tick) == Done(DayOutcome(NoStats, None, tick))
  {
  }

  /** With only the examples wanted the statistics are zero; the examples run
      exactly when the day is published, has an example and tests are not
      skipped, and they take three clock readings. */
  lemma TestsOnlyDay<C>(env: Env<C>, dayNumber: int, numRuns: int, skipTests: bool, tick: nat)
    requires 0 <= numRuns && 1 <= dayNumber <= |env.days|
    ensures var r := DayRun(env, dayNumber, numRuns, skipTests, true, tick);
            var day := env.days[dayNumber - 1];
            var ran := !NotYetPublished(env.today, env.year, day.dayNumber) && day.exampleInput != "" && !skipTests;
            r.Done? && r.value.stats == NoStats &&
            (r.value.tested.Some? <==> ran) &&
            r.value.tick == (if ran then tick + 3 else tick) &&
            (ran ==> r.value.tested.value == TestDay(day, env.now(tick), env.now(tick + 1), env.now(tick + 2)))
  {
  }

  /** No clock reading is taken exactly when the day is skipped, or when only
      the examples are wanted and they do not run. */
  lemma NothingExecutesExactly<C>(env: Env<C>, dayNumber: int, numRuns: int, skipTests: bool, testsOnly: bool,
                                  tick: nat)
    requires 0 <= numRuns && 1 <= dayNumber <= |env.days|
    ensures var r := DayRun(env, dayNumber, numRuns, skipTests, testsOnly, tick);
            var day := env.days[dayNumber - 1];
            r.Done? ==>
              (r.value.tick == tick <==>
                 NotYetPublished(env.today, env.year, day.dayNumber) ||
                 (testsOnly && !(day.exampleInput != "" && !skipTests)))
  {
  }

  /** Fewer than two runs: the real input runs once and its total time
      stands for the minimum, maximum, median and mean alike. */
  lemma SingleRunStats<C>(env: Env<C>, dayNumber: int, numRuns: int, skipTests: bool, tick: nat)
    requires 0 <= numRuns < 2 && 1 <= dayNumber <= |env.days|
    requires !NotYetPublished(env.today, env.year, env.days[dayNumber - 1].dayNumber)
    ensures var r := DayRun(env, dayNumber, numRuns, skipTests, false, tick);
            var day := env.days[dayNumber - 1];
            var k := if day.exampleInput != "" && !skipTests then tick + 3 else tick;
            var total := env.now(k + 2) - env.now(k);
            r.Done? && r.value.stats == RunStats(total, total, total, total) && r.value.tick == k + 3
  {
  }

  // ---------------------------------------------------------------------
  // The clock

  /** A clock that never goes back gives no negative phase time; one that
      always moves forward gives only positive ones. */
  lemma ClockOrdersTimes<C>(env: Env<C>, day: DayImplementation<C>, k: nat, n: nat)
    ensures Monotone(env.now) ==>
              forall i :: 0 <= i < n ==> 0 <= Runs(env, day, k, n)[i].part1Time && 0 <= Runs(env, day, k, n)[i].part2Time
    ensures StrictlyIncreasing(env.now) ==>
              forall i :: 0 <= i < n ==> 0 < Runs(env, day, k, n)[i].part1Time && 0 < Runs(env, day, k, n)[i].part2Time
  {
    forall i | 0 <= i < n
      ensures Runs(env, day, k, n)[i].part1Time == env.now(k + 3 * i + 1) - env.now(k + 3 * i)
      ensures Runs(env, day, k, n)[i].part2Time == env.now(k + 3 * i + 2) - env.now(k + 3 * i + 1)
    {
      RunsAt(env, day, k, n, i);
    }
    if Monotone(env.now) {
      forall i | 0 <= i < n
        ensures 0 <= Runs(env, day, k, n)[i].part1Time && 0 <= Runs(env, day, k, n)[i].part2Time
      {
        assert env.now(k + 3 * i) <= env.now(k + 3 * i + 1);
        assert env.now(k + 3 * i + 1) <= env.now(k + 3 * i + 2);
      }
    }
    if StrictlyIncreasing(env.now) {
      forall i | 0 <= i < n
        ensures 0 < Runs(env, day, k, n)[i].part1Time && 0 < Runs(env, day, k, n)[i].part2Time
      {
        assert env.now(k + 3 * i) < env.now(k + 3 * i + 1);
        assert env.now(k + 3 * i + 1) < env.now(k + 3 * i + 2);
      }
    }
  }

  // ---------------------------------------------------------------------
  // Repeated-run statistics

  /** Every run in a permutation of `runs` is one of `runs`. */
  lemma PermutationMembers(runs: seq<DayResult>, sorted: seq<DayResult>)
    requires multiset(sorted) == multiset(runs)
    ensures forall j :: 0 <= j < |sorted| ==> sorted[j] in runs
  {
    forall j | 0 <= j < |sorted|
      ensures sorted[j] in runs
    {
      assert sorted[j] in multiset(sorted);
    }
  }

  /** Times of a permutation obey the bounds the original times obey. */
  lemma PermutedTimesWithin(runs: seq<DayResult>, sorted: seq<DayResult>, p: Part, lo: int, hi: int)
    requires multiset(sorted) == multiset(runs)
    requires forall i :: 0 <= i < |runs| ==> lo <= Time(runs[i], p) <= hi
    ensures forall j :: 0 <= j < |sorted| ==> lo <= Times(sorted, p)[j] <= hi
  {
    PermutationMembers(runs, sorted);
    forall j | 0 <= j < |sorted|
      ensures lo <= Times(sorted, p)[j] <= hi
    {
      var i :| 0 <= i < |runs| && runs[i] == sorted[j];
    }
  }

  /** With positive times, one phase's minimum and maximum are the true
      extremes of its times and the median and mean lie between them,
      whatever order the median is read from. */
  lemma PhaseStatsBounds(runs: seq<DayResult>, sorted: seq<DayResult>, p: Part)
    requires 0 < |runs| == |sorted| && |runs| != 2
    requires multiset(sorted) == multiset(runs)
    requires forall i :: 0 <= i < |runs| ==> 0 < Time(runs[i], p)
    ensures PhaseStats(runs, sorted, p).Done?
    ensures var st := PhaseStats(runs, sorted, p).value;
            Ordered(st) && 0 < st.min &&
            st.min in Times(runs, p) && st.max in Times(runs, p) &&
            forall i :: 0 <= i < |runs| ==> st.min <= Time(runs[i], p) <= st.max
  {
    var ts := Times(runs, p);
    SentinelMinIsMin(ts);
    MaxFoldIsMax(ts);
    var lo, hi := SentinelMin(ts), MaxFold(ts);
    MeanWithin(ts, lo, hi);
    PermutedTimesWithin(runs, sorted, p, lo, hi);
    MedianWithin(Times(sorted, p), lo, hi);
  }

  /** With non-negative times the maximum is still the largest time and
      bounds the median and the mean; the minimum is not negative. A zero
      time, though, resets the minimum (see `Stats.ZeroResetsMin`). */
  lemma PhaseStatsUpperBounds(runs: seq<DayResult>, sorted: seq<DayResult>, p: Part)
    requires 0 < |runs| == |sorted| && |runs| != 2
    requires multiset(sorted) == multiset(runs)
    requires forall i :: 0 <= i < |runs| ==> 0 <= Time(runs[i], p)
    ensures PhaseStats(runs, sorted, p).Done?
    ensures var st := PhaseStats(runs, sorted, p).value;
            0 <= st.min && 0 <= st.median <= st.max && 0 <= st.mean <= st.max &&
            st.max in Times(runs, p) &&
            forall i :: 0 <= i < |runs| ==> Time(runs[i], p) <= st.max
  {
    var ts := Times(runs, p);
    MinFoldNonNegative(0, ts);
    MaxFoldIsMax(ts);
    var hi := MaxFold(ts);
    MeanWithin(ts, 0, hi);
    PermutedTimesWithin(runs, sorted, p, 0, hi);
    MedianWithin(Times(sorted, p), 0, hi);
  }

  /** Three or more runs with positive times: the combined statistics are
      ordered, the minimum is positive, and every run's total time lies
      between the combined minimum and maximum. */
  lemma RepeatedStatsBounds(runs: seq<DayResult>)
    requires |runs| >= 3
    requires forall i :: 0 <= i < |runs| ==> 0 < runs[i].part1Time && 0 < runs[i].part2Time
    ensures RepeatedStats(runs).Done?
    ensures Ordered(RepeatedStats(runs).value) && 0 < RepeatedStats(runs).value.min
    ensures forall i :: 0 <= i < |runs| ==>
              RepeatedStats(runs).value.min <= runs[i].part1Time + runs[i].part2Time <= RepeatedStats(runs).value.max
  {
    var byPart1 := SortBy(runs, Part1);
    var byPart2 := SortBy(byPart1, Part2);
    SortByPermutes(runs, Part1);
    SortByPermutes(byPart1, Part2);
    assert forall i :: 0 <= i < |runs| ==> 0 < Time(runs[i], Part1) && 0 < Time(runs[i], Part2);
    PhaseStatsBounds(runs, byPart1, Part1);
    PhaseStatsBounds(runs, byPart2, Part2);
    var p1 := PhaseStats(runs, byPart1, Part1).value;
    var p2 := PhaseStats(runs, byPart2, Part2).value;
    RepeatedStatsDone(runs, p1, p2);
    CombineOrdered(p1, p2);
    assert forall i :: 0 <= i < |runs| ==> p1.min <= Time(runs[i], Part1) <= p1.max;
    assert forall i :: 0 <= i < |runs| ==> p2.min <= Time(runs[i], Part2) <= p2.max;
  }

  /** Whatever order the answers put the runs in, an odd count's median is
      one of the observed times, and an even count's (four or more) is the
      truncated average of two observed times. */
  lemma MedianIsObserved(runs: seq<DayResult>, sorted: seq<DayResult>, p: Part)
    requires 0 < |runs| == |sorted| && |runs| != 2
    requires multiset(sorted) == multiset(runs)
    ensures PhaseStats(runs, sorted, p).Done?
    ensures |runs| % 2 == 1 ==> PhaseStats(runs, sorted, p).value.median in Times(runs, p)
    ensures |runs| % 2 == 0 ==>
              exists a, b :: a in Times(runs, p) && b in Times(runs, p) &&
                             PhaseStats(runs, sorted, p).value.median == GoDiv(a + b, 2)
  {
    var n := |runs|;
    var ts, ss := Times(runs, p), Times(sorted, p);
    PermutationMembers(runs, sorted);
    var m := n / 2;
    var i :| 0 <= i < n && runs[i] == sorted[m];
    assert ts[i] == ss[m];
    var median := PhaseStats(runs, sorted, p).value.median;
    if n % 2 == 1 {
      assert median == ss[m];
    } else {
      var j :| 0 <= j < n && runs[j] == sorted[m + 1];
      assert ts[j] == ss[m + 1];
      assert median == GoDiv(ts[i] + ts[j], 2);
      assert ts[i] in ts && ts[j] in ts;
    }
  }

  /** Repeated runs: each total is the sum of the two phases' statistics of
      the same kind, part 1's median read in part 1's answer order and part
      2's in part 2's. */
  lemma TotalsArePhaseSums(runs: seq<DayResult>)
    requires |runs| >= 3
    ensures |SortBy(runs, Part1)| == |runs| && |SortBy(SortBy(runs, Part1), Part2)| == |runs|
    ensures PhaseStats(runs, SortBy(runs, Part1), Part1).Done?
    ensures PhaseStats(runs, SortBy(SortBy(runs, Part1), Part2), Part2).Done?
    ensures RepeatedStats(runs) == Done(Combine(PhaseStats(runs, SortBy(runs, Part1), Part1).value,
                                                PhaseStats(runs, SortBy(SortBy(runs, Part1), Part2), Part2).value))
  {
    SortByPermutes(runs, Part1);
    SortByPermutes(SortBy(runs, Part1), Part2);
    MedianIsObserved(runs, SortBy(runs, Part1), Part1);
    MedianIsObserved(runs, SortBy(SortBy(runs, Part1), Part2), Part2);
  }

  /** The sort key is the answer, not the time: when every run gives the same
      part 1 answer the order is the order the runs ran in, and the part 1
      "median" is the time of the middle run, or for an even count the
      truncated average of runs N/2 and N/2+1 in execution order, whatever
      the times are. */
  lemma TiedAnswersMedianIsMiddleRun(runs: seq<DayResult>)
    requires |runs| >= 3
    requires forall i :: 0 <= i < |runs| ==> runs[i].part1Result == runs[0].part1Result
    ensures |SortBy(runs, Part1)| == |runs|
    ensures PhaseStats(runs, SortBy(runs, Part1), Part1) == Done(RunStats(
              SentinelMin(Times(runs, Part1)), MaxFold(Times(runs, Part1)),
              if |runs| % 2 == 1 then runs[|runs| / 2].part1Time
              else GoDiv(runs[|runs| / 2].part1Time + runs[|runs| / 2 + 1].part1Time, 2),
              Mean(Times(runs, Part1))))
  {
    assert forall i :: 0 <= i < |runs| ==> Answer(runs[i], Part1) == Answer(runs[0], Part1);
    SortByKeepsTies(runs, Part1);
    InOrderMedian(runs);
  }

  /** The part 1 statistics of runs taken in execution order. */
  lemma InOrderMedian(runs: seq<DayResult>)
    requires |runs| >= 3
    ensures PhaseStats(runs, runs, Part1) == Done(RunStats(
              SentinelMin(Times(runs, Part1)), MaxFold(Times(runs, Part1)),
              if |runs| % 2 == 1 then runs[|runs| / 2].part1Time
              else GoDiv(runs[|runs| / 2].part1Time + runs[|runs| / 2 + 1].part1Time, 2),
              Mean(Times(runs, Part1))))
  {
    var ts := Times(runs, Part1);
    var n := |runs|;
    assert ts[n / 2] == runs[n / 2].part1Time;
    if n % 2 == 0 {
      assert ts[n / 2 + 1] == runs[n / 2 + 1].part1Time;
    }
  }

  /** On a forward-moving clock a completed day's statistics are ordered,
      and positive whenever the real input ran. */
  lemma DayStatsOrdered<C>(env: Env<C>, dayNumber: int, numRuns: int, skipTests: bool, testsOnly: bool,
                           tick: nat)
    requires StrictlyIncreasing(env.now)
    requires DayRun(env, dayNumber, numRuns, skipTests, testsOnly, tick).Done?
    ensures Ordered(DayRun(env, dayNumber, numRuns, skipTests, testsOnly, tick).value.stats)
    ensures 1 <= dayNumber <= |env.days| && !testsOnly &&
            !NotYetPublished(env.today, env.year, env.days[dayNumber - 1].dayNumber) ==>
              0 < DayRun(env, dayNumber, numRuns, skipTests, testsOnly, tick).value.stats.min
  {
    var day := env.days[dayNumber - 1];
    if !NotYetPublished(env.today, env.year, day.dayNumber) && !testsOnly {
      var k := if day.exampleInput != "" && !skipTests then tick + 3 else tick;
      if numRuns < 2 {
        assert env.now(k) < env.now(k + 2);
      } else {
        var runs := Runs(env, day, k, numRuns);
        ClockOrdersTimes(env, day, k, numRuns);
        RepeatedStatsBounds(runs);
      }
    }
  }

  // ---------------------------------------------------------------------
  // All days

  /** The clock readings taken before day `ix + 1` starts. */
  ghost function StartTick<C>(env: Env<C>, flags: Flags, ix: nat): nat
    requires ix <= |env.days|
  {
    var before := RunDays(env, flags, ix);
    if before.Done? then before.value.1 else 0
  }

  /** Day `ix + 1`'s run as the all-days loop performs it. */
  ghost function DayInSequence<C>(env: Env<C>, flags: Flags, ix: nat): Outcome<DayOutcome>
    requires ix < |env.days|
  {
    DayRun(env, ix + 1, flags.numRuns, flags.skipTests, flags.testsOnly, StartTick(env, flags, ix))
  }

  /** Each day's statistics from its run in the sequence, day by day. */
  ghost function CollectedStats<C>(env: Env<C>, flags: Flags, n: nat): seq<RunStats>
    requires n <= |env.days|
  {
    seq(n, ix requires 0 <= ix < n =>
      var day := DayInSequence(env, flags, ix);
      if day.Done? then day.value.stats else NoStats)
  }

  /** A completed run of days has completed every shorter run of days. */
  lemma {:induction false} RunDaysPrefix<C>(env: Env<C>, flags: Flags, m: nat, n: nat)
    requires m <= n <= |env.days|
    requires RunDays(env, flags, n).Done?
    ensures RunDays(env, flags, m).Done?
    ensures RunDays(env, flags, m).value.0 == RunDays(env, flags, n).value.0[..m]
  {
    if m < n {
      assert RunDays(env, flags, n - 1).Done?;
      assert RunDays(env, flags, n).value.0[..n - 1] == RunDays(env, flags, n - 1).value.0;
      RunDaysPrefix(env, flags, m, n - 1);
    }
  }

  /** The statistics a completed run of days collects are, day by day, those
      of the day's own run started where the previous day left the clock. */
  lemma RunDaysCollects<C>(env: Env<C>, flags: Flags, n: nat)
    requires n <= |env.days|
    requires RunDays(env, flags, n).Done?
    ensures forall ix :: 0 <= ix < n ==>
              DayInSequence(env, flags, ix).Done? &&
              RunDays(env, flags, n).value.0[ix] == DayInSequence(env, flags, ix).value.stats
  {
    forall ix | 0 <= ix < n
      ensures DayInSequence(env, flags, ix).Done?
      ensures RunDays(env, flags, n).value.0[ix] == DayInSequence(env, flags, ix).value.stats
    {
      RunDaysPrefix(env, flags, ix + 1, n);
      assert RunDays(env, flags, ix).Done?;
    }
  }

  /** The all-days report holds one median per day, in day order, each the
      median of that day's run; the totals sum each kind of statistic over
      the days; the chart rows have one column per day. */
  lemma ReportTimesAreDayMedians<C>(env: Env<C>, flags: Flags)
    requires RunSpec(env, flags).AllDays?
    ensures var rep := RunSpec(env, flags).report;
            |rep.times| == |rep.axis| == |rep.tensRow| == |rep.unitsRow| == |env.days| &&
            rep.times == Medians(CollectedStats(env, flags, |env.days|)) &&
            rep.totals == Totals(CollectedStats(env, flags, |env.days|)) &&
            forall ix :: 0 <= ix < |env.days| ==>
              DayInSequence(env, flags, ix).Done? &&
              rep.times[ix] == DayInSequence(env, flags, ix).value.stats.median
  {
    var n := |env.days|;
    RunDaysCollects(env, flags, n);
    assert RunDays(env, flags, n).value.0 == CollectedStats(env, flags, n);
  }

  /** The chart's scale is the largest median: no day's median exceeds it,
      it is not negative, and it is zero or some day's median. */
  lemma ReportScale<C>(env: Env<C>, flags: Flags)
    requires RunSpec(env, flags).AllDays?
    ensures var rep := RunSpec(env, flags).report;
            0 <= rep.maxTime && (rep.maxTime == 0 || rep.maxTime in rep.times) &&
            forall ix :: 0 <= ix < |rep.times| ==> rep.times[ix] <= rep.maxTime
  {
    MaxFoldIsMax(RunSpec(env, flags).report.times);
  }

  /** Totals of ordered statistics are ordered. */
  lemma {:induction false} TotalsOrdered(ss: seq<RunStats>)
    requires forall i :: 0 <= i < |ss| ==> Ordered(ss[i])
    ensures Ordered(Totals(ss))
  {
    if ss != [] {
      var init := ss[..|ss| - 1];
      TotalsOrdered(init);
      TotalsStep(init, ss[|ss| - 1]);
      assert ss == init + [ss[|ss| - 1]];
      CombineOrdered(Totals(init), ss[|ss| - 1]);
    }
  }

  /** On a forward-moving clock every day a run of days completed has
      ordered statistics. */
  lemma DaysOrdered<C>(env: Env<C>, flags: Flags, n: nat)
    requires StrictlyIncreasing(env.now)
    requires n <= |env.days| && RunDays(env, flags, n).Done?
    ensures forall ix :: 0 <= ix < n ==> Ordered(RunDays(env, flags, n).value.0[ix])
  {
    RunDaysCollects(env, flags, n);
    forall ix | 0 <= ix < n
      ensures Ordered(RunDays(env, flags, n).value.0[ix])
    {
      DayInSequenceOrdered(env, flags, ix);
    }
  }

  lemma DayInSequenceOrdered<C>(env: Env<C>, flags: Flags, ix: nat)
    requires StrictlyIncreasing(env.now)
    requires ix < |env.days| && DayInSequence(env, flags, ix).Done?
    ensures Ordered(DayInSequence(env, flags, ix).value.stats)
  {
    DayStatsOrdered(env, ix + 1, flags.numRuns, flags.skipTests, flags.testsOnly, StartTick(env, flags, ix));
  }

  /** On a forward-moving clock the grand totals are ordered too. */
  lemma ReportTotalsOrdered<C>(env: Env<C>, flags: Flags)
    requires StrictlyIncreasing(env.now)
    requires RunSpec(env, flags).AllDays?
    ensures Ordered(RunSpec(env, flags).report.totals)
  {
    var ss := RunDays(env, flags, |env.days|).value.0;
    DaysOrdered(env, flags, |env.days|);
    TotalsOrdered(ss);
  }

  /** The two label rows spell each day number from 1 to 99 in decimal: the
      tens digit above the units digit, or a day below ten alone in the upper
      row above a space. */
  lemma LabelsSpellDayNumber(d: nat)
    requires 1 <= d < 100
    ensures DigitZero <= TopLabel(d) <= DigitZero + 9
    ensures 10 <= d ==> DigitZero <= BottomLabel(d) <= DigitZero + 9
    ensures 10 <= d ==> (TopLabel(d) - DigitZero) as int * 10 + (BottomLabel(d) - DigitZero) as int == d
    ensures d < 10 ==> (TopLabel(d) - DigitZero) as int == d && BottomLabel(d) == Space
  {
  }
}
