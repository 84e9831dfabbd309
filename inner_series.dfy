/** The inner value series of the On-Balance-Volume indicator.
    The indicator keeps its running total in an `Identity` indicator: a series
    whose current value starts at 0, whose `Update(x)` makes `x` the current
    value and marks the series ready, and whose `Reset()` returns it to 0 and
    not ready. Only that much of `Identity` is modelled. */
module InnerSeries {

  /** The observable state of the series: its current value and readiness. */
  datatype SeriesState = SeriesState(value: real, ready: bool)

  /** A freshly built or freshly reset series. */
  const Cleared := SeriesState(0.0, false)

  class Identity {
    var current: real
    var isReady: bool

    ghost function Model(): SeriesState
      reads this
    {
      SeriesState(current, isReady)
    }

    constructor ()
      ensures Model() == Cleared
    {
      current := 0.0;
      isReady := false;
    }

    /** Pushes one data point: it becomes the current value and the series is ready. */
    method Update(x: real)
      modifies this
      ensures Model() == SeriesState(x, true)
    {
      current := x;
      isReady := true;
    }

    /** Forgets every data point seen so far. */
    method Reset()
      modifies this
      ensures Model() == Cleared
    {
      current := 0.0;
      isReady := false;
    }
  }
}
