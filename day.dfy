/** One puzzle day: the two-phase timed execution and the example check.
    The solution functions are parameters of the day; the three clock
    readings taken around the two phases are parameters of the execution. */
module Day {

  /** The outcome of one execution of both phases: the two answers and
      the two phase durations (nanoseconds, as an unbounded integer). */
  datatype DayResult = DayResult(
    part1Result: string,
    part1Time: int,
    part2Result: string,
    part2Time: int)

  /** An execution on the example input together with the two verdicts. */
  datatype TestResult = TestResult(
    result: DayResult,
    part1Correct: bool,
    part2Correct: bool)

  /** A registered puzzle. `C` is the opaque context part 1 hands to part 2. */
  datatype DayImplementation<!C> = DayImplementation(
    dayNumber: int,
    executePart1: string -> (string, C),
    executePart2: (string, C) -> string,
    exampleInput: string,
    examplePart1Answer: string,
    examplePart2Answer: string)

  /** Which of the two phases a statistic or a sort key refers to. */
  datatype Part = Part1 | Part2

  /** The answer a run recorded for phase `p`. */
  function Answer(r: DayResult, p: Part): string {
    if p == Part1 then r.part1Result else r.part2Result
  }

  /** The duration a run recorded for phase `p`. */
  function Time(r: DayResult, p: Part): int {
    if p == Part1 then r.part1Time else r.part2Time
  }

  /** The durations of phase `p`, run by run. */
  function Times(rs: seq<DayResult>, p: Part): (ts: seq<int>)
    ensures |ts| == |rs|
    ensures forall i :: 0 <= i < |rs| ==> ts[i] == Time(rs[i], p)
  {
    seq(|rs|, i requires 0 <= i < |rs| => Time(rs[i], p))
  }

  lemma TimesAppend(rs: seq<DayResult>, r: DayResult)
    ensures Times(rs + [r], Part1) == Times(rs, Part1) + [r.part1Time]
    ensures Times(rs + [r], Part2) == Times(rs, Part2) + [r.part2Time]
  {
  }

  /** The zero value of a `DayResult`. */
  const NoResult := DayResult("", 0, "", 0)

  /** The zero value of a `TestResult`: nothing ran, both verdicts false. */
  const NoTest := TestResult(NoResult, false, false)

  /** Part 1 runs on `input`, then part 2 runs on the same input with the
      context part 1 returned; `start`, `part1Done` and `part2Done` are the
      clock readings taken before part 1, between the phases and after part 2. */
  function RunDayWithInput<C>(day: DayImplementation<C>, input: string,
                              start: int, part1Done: int, part2Done: int): (r: DayResult)
    ensures r.part1Result == day.executePart1(input).0
    ensures r.part2Result == day.executePart2(input, day.executePart1(input).1)
    ensures r.part1Time + r.part2Time == part2Done - start
    ensures start <= part1Done <= part2Done ==> 0 <= r.part1Time && 0 <= r.part2Time
  {
    var (part1Result, part1Context) := day.executePart1(input);
    var part2Result := day.executePart2(input, part1Context);
    DayResult(part1Result, part1Done - start, part2Result, part2Done - part1Done)
  }

  /** A run on the real input, which `fetch` supplies for the day's number. */
  function ExecuteDay<C>(day: DayImplementation<C>, fetch: int -> string,
                         start: int, part1Done: int, part2Done: int): (r: DayResult)
    ensures r.part1Result == day.executePart1(fetch(day.dayNumber)).0
    ensures r.part2Result == day.executePart2(fetch(day.dayNumber), day.executePart1(fetch(day.dayNumber)).1)
    ensures r.part1Time + r.part2Time == part2Done - start
  {
    RunDayWithInput(day, fetch(day.dayNumber), start, part1Done, part2Done)
  }

  /** A run on the example input with both answers compared exactly; with no
      example input nothing runs and the zero result comes back. */
  function TestDay<C>(day: DayImplementation<C>, start: int, part1Done: int, part2Done: int): (r: TestResult)
    ensures r.part1Correct <==>
              day.exampleInput != "" && day.executePart1(day.exampleInput).0 == day.examplePart1Answer
    ensures r.part2Correct <==>
              day.exampleInput != "" &&
              day.executePart2(day.exampleInput, day.executePart1(day.exampleInput).1) == day.examplePart2Answer
    ensures day.exampleInput == "" ==> r == NoTest
    ensures day.exampleInput != "" ==> r.result.part1Time + r.result.part2Time == part2Done - start
  {
    if day.exampleInput != "" then
      var result := RunDayWithInput(day, day.exampleInput, start, part1Done, part2Done);
      var part1Correct := result.part1Result == day.examplePart1Answer;
      var part2Correct := result.part2Result == day.examplePart2Answer;
      TestResult(result, part1Correct, part2Correct)
    else
      NoTest
  }

  /** The example check and the real run execute the same two phases; they
      differ only in the input: the example for the one, the fetched input
      for the other. */
  lemma ExampleAndRealDifferOnlyInInput<C>(day: DayImplementation<C>, fetch: int -> string,
                                           start: int, part1Done: int, part2Done: int)
    requires day.exampleInput != ""
    ensures TestDay(day, start, part1Done, part2Done).result
            == RunDayWithInput(day, day.exampleInput, start, part1Done, part2Done)
    ensures fetch(day.dayNumber) == day.exampleInput ==>
              TestDay(day, start, part1Done, part2Done).result
              == ExecuteDay(day, fetch, start, part1Done, part2Done)
  {
  }
}
