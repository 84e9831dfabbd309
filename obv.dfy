/** The On-Balance-Volume indicator as an object: it remembers the last bar it
    saw and keeps its running total in an inner `Identity` series. */
module Indicators {
  import opened InnerSeries
  import opened ObvSpec

  class OnBalanceVolume {
    var previousInput: Option<Bar>
    /** The inner series; its public setter lets a caller seed a non-zero total. */
    var values: Identity

    ghost function Model(): State
      reads this, values
    {
      State(previousInput, values.Model())
    }

    constructor ()
      ensures Model() == Initial
      ensures fresh(values)
    {
      previousInput := None;
      values := new Identity();
    }

    /** The public setter of the inner series. */
    method SetValues(series: Identity)
      modifies this
      ensures values == series
      ensures previousInput == old(previousInput)
    {
      values := series;
    }

    /** Ready exactly when the inner series is. */
    function IsReady(): (r: bool)
      reads this, values
      ensures r == Model().inner.ready
    {
      values.isReady
    }

    /** Consumes one bar and returns the new indicator value. */
    method ComputeNextValue(input: Bar) returns (obv: real)
      modifies this, values
      ensures values == old(values)
      ensures obv == Next(old(Model()), input).output
      ensures Model() == Next(old(Model()), input).next
    {
      obv := 0.0;

      if previousInput.Some? && input.value == previousInput.value.value {
        obv := values.current;
        values.Update(obv);
        previousInput := Some(input);
        return;
      }

      if previousInput.Some? && input.value > previousInput.value.value {
        if values.current != 0.0 {
          obv := input.volume + values.current;
          values.Update(obv);
          previousInput := Some(input);
          return;
        }
      }

      if previousInput.Some? && input.value < previousInput.value.value {
        if values.current != 0.0 {
          obv := values.current - input.volume;
          values.Update(obv);
          previousInput := Some(input);
          return;
        }
      }

      previousInput := Some(input);
    }

    /** Clears the inner series only; the last bar seen is kept. */
    method Reset()
      modifies values
      ensures Model() == AfterReset(old(Model()))
    {
      values.Reset();
    }
  }
}
