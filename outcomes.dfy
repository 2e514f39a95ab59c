/** The ways a run ends: with a value, or with a Go runtime panic that stops
    the whole program. */
module Outcomes {

  /** The runtime panics the modelled code can raise. */
  datatype PanicReason =
    | NegativeSliceLength   // `make` with a negative length
    | DayIndexOutOfRange    // `days[dayNumber-1]` outside the slice
    | MedianIndexOutOfRange // `results[numRuns/2+1]` outside the slice

  datatype Outcome<T> = Done(value: T) | Panic(reason: PanicReason)

  datatype Option<T> = None | Some(value: T)
}
