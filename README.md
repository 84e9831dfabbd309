# On-Balance-Volume indicator

A Dafny model of the On-Balance-Volume (OBV) indicator of the Lean trading
engine (`Indicators/OnBalanceVolume.cs`). The indicator consumes trade bars
one at a time. It remembers the last bar it saw (`_previousInput`) and keeps
its running total in an inner `Identity` series (`OnBalanceVoulumeValues`).
On each bar it compares the bar's value with the previous bar's value:

- unchanged price: it re-records the inner value;
- price up, inner value non-zero: it records inner + volume;
- price down, inner value non-zero: it records inner − volume;
- otherwise (first bar, or a move from a zero inner value): it returns 0 and
  leaves the inner series untouched.

Every path stores the bar as the previous one. `Reset` clears the inner series
only. `IsReady` is the readiness of the inner series.

Layout:

- `inner_series.dfy` (module `InnerSeries`): the inner series' state
  (`SeriesState`: current value and readiness) and the class `Identity`.
  `Identity.cs` is not part of this model. Its behaviour is assumed: the value
  starts at 0, `Update(x)` makes `x` the current value and marks the series
  ready, and `Reset()` sets it back to 0 and not ready.
- `obv_spec.dfy` (module `ObvSpec`): the update as a function `Next` on a state
  value, `AfterReset`, `Run` (a stream of bars fed one by one), the textbook
  OBV `ClassicObv` as a reference, and the lemmas.
- `obv.dfy` (module `Indicators`): the class `OnBalanceVolume` with the fields
  `previousInput` and `values` and the methods `ComputeNextValue`, `Reset`,
  `SetValues` (the public setter of the inner series) and the function
  `IsReady`. The postconditions of `ComputeNextValue` and `Reset` tie the new
  state to `Next` and `AfterReset` applied to the old state.

Decimals are modelled as exact `real` numbers. A bar is just its `value` and
its `volume`.

Two behaviours of the code are modelled as written:

- The zero-baseline guard. From a zero inner value every output is 0
  (`UnseededStaysZero`), unlike the textbook totals that the class's own doc
  comment describes (`ExampleTrace`). When the inner series is seeded so that
  no price move meets a zero total, the outputs are the textbook totals
  (`SeededMatchesClassicObv`).
- `Reset` keeps the previous bar. The doc comment of `Reset`
  (`OnBalanceVolume.cs:101`) says it returns the indicator to its initial
  state, but the body (`OnBalanceVolume.cs:103-106`) leaves `_previousInput`
  as it was. The model follows the body. The outputs after a reset still
  equal those of a fresh indicator (`ResetReproducesFreshOutputs`), because
  both stay at 0. Readiness does not (`ResetKeepsPreviousBar`).

## Model

| member | source | states |
|---|---|---|
| `Indicators.OnBalanceVolume.ComputeNextValue` | Indicators/OnBalanceVolume.cs:59-98 | the returned value and the new state (previous bar, inner value and readiness) are exactly those `Next` gives for the old state and the bar; the inner series object is not replaced |
| `Indicators.OnBalanceVolume.Reset` | Indicators/OnBalanceVolume.cs:103-106 | the new state is `AfterReset` of the old one: inner series cleared, previous bar kept |
| `Indicators.OnBalanceVolume.IsReady` | Indicators/OnBalanceVolume.cs:48-52 | the indicator is ready exactly when its inner series is |
| `Indicators.OnBalanceVolume.constructor` | Indicators/OnBalanceVolume.cs:39-43 | a new indicator has no previous bar and a fresh inner series with value 0, not ready |
| `Indicators.OnBalanceVolume.SetValues` | Indicators/OnBalanceVolume.cs:33 | the setter replaces the inner series and keeps the previous bar |
| `InnerSeries.Identity.constructor` | Indicators/OnBalanceVolume.cs:42 | a new inner series has value 0 and is not ready |
| `InnerSeries.Identity.Update` | Indicators/OnBalanceVolume.cs:66 | recording a value makes it the current value and the series ready |
| `InnerSeries.Identity.Reset` | Indicators/OnBalanceVolume.cs:105 | a reset series has value 0 and is not ready |
| `ObvSpec.Next` | Indicators/OnBalanceVolume.cs:59-98 | every path stores the bar as previous; the inner series receives the output exactly when the update records, and is otherwise left as it was (value and readiness); a fall-through returns 0; from a zero inner value the output and the new inner value are 0 |
| `ObvSpec.AfterReset` | Indicators/OnBalanceVolume.cs:103-106 | reset keeps the previous bar and leaves the inner value 0 and not ready |
| `ObvSpec.Run` | Indicators/OnBalanceVolume.cs:59-98 | feeding a stream gives one output per bar, and the last bar fed is the stored previous bar |
| `ObvSpec.EqualBarHolds` | Indicators/OnBalanceVolume.cs:63-69 | an unchanged price returns the inner value and records that same value, so the inner value is unchanged and the series becomes ready |
| `ObvSpec.UpBarAdds` | Indicators/OnBalanceVolume.cs:72-81 | a price rise from a non-zero inner value returns inner + volume and records it |
| `ObvSpec.DownBarSubtracts` | Indicators/OnBalanceVolume.cs:84-93 | a price fall from a non-zero inner value returns inner − volume and records it |
| `ObvSpec.FallThroughLeavesSeries` | Indicators/OnBalanceVolume.cs:61-97 | the first bar, and a price move from a zero inner value, return 0 and leave the inner value and readiness untouched |
| `ObvSpec.FirstBarNotReady` | Indicators/OnBalanceVolume.cs:48-52 | a first bar alone does not make a fresh indicator ready; a second bar at the same price does |
| `ObvSpec.UnseededStaysZero` | Indicators/OnBalanceVolume.cs:61-97 | from a zero inner value, every output of any stream of bars is 0 and the inner value stays 0 |
| `ObvSpec.ReadinessNeverLost` | Indicators/OnBalanceVolume.cs:66-92 | once the inner series is ready, no stream of bars makes it not ready |
| `ObvSpec.UnseededReadyIffRepeat` | Indicators/OnBalanceVolume.cs:63-69 | from a zero inner value, the indicator ends ready if and only if it was ready or some bar repeated the price of the bar before it |
| `ObvSpec.ResetReproducesFreshOutputs` | Indicators/OnBalanceVolume.cs:103-106 | after a reset, any stream of bars gives the same outputs as on a fresh indicator |
| `ObvSpec.ResetKeepsPreviousBar` | Indicators/OnBalanceVolume.cs:103-106 | reset keeps the previous bar, so repeating that bar after a reset makes the indicator ready, where on a fresh indicator it does not |
| `ObvSpec.ClassicObv` | Indicators/OnBalanceVolume.cs:20-24 | the textbook running totals: one per bar, adding the volume on a rise, subtracting it on a fall, holding on an unchanged price |
| `ObvSpec.SeededMatchesClassicObv` | Indicators/OnBalanceVolume.cs:59-98 | with a previous bar and a seeded inner value such that the running total is non-zero at every price move, the outputs are exactly the textbook running totals and the inner series ends at the last of them, ready |
| `ObvSpec.ExampleTrace` | Indicators/OnBalanceVolume.cs:59-98 | on the bars (100, 1000), (105, 500), (105, 300), (90, 400) a fresh indicator outputs 0, 0, 0, 0, where the textbook totals from the first bar would be 500, 500, 100 |

## Left out

- The base-class plumbing of `TradeBarIndicator`/`IndicatorBase`: the name, sample counting and wrapping the returned value into the outer `Current`. Those classes are not part of this model.
- The internals of `Identity`: `Identity.cs` is not part of this model; its behaviour is the assumption stated above.
- Timestamps (`input.Time` and the construction of `IndicatorDataPoint`): they never influence a value.
- Trade bar fields other than `Value` and `Volume`.
- Decimal precision, rounding and overflow: values are unbounded exact reals.
- The commented-out alternative readiness rule at `OnBalanceVolume.cs:50`.
- Aliasing through the setter: a series shared with other code may be changed by that code between updates; the model only states what each call of this class does.
- SetValues: the setter is modelled only for a non-null `Identity`, used to seed the running total. The source accepts any `IndicatorBase<IndicatorDataPoint>`, including `null` (then `ComputeNextValue` and `IsReady` throw `NullReferenceException`) and indicators whose `Update` does not make its argument the current value; the model's properties do not cover those.
