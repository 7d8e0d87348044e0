# bccq-price-calculator in Dafny

A model of the futures order calculator `bccq-price-calculator` and its two
trigger engines, with proofs of what they compute.

- `calculator.dfy` is module `Calculator`, from `lib/calculator.js`. It covers:
  - quantizing a price to the instrument's step (`parseDecimal`, `parsePercent`);
  - the return ratio of a long or a short between an open and a close price (`calcRatio`);
  - its inverse, the prices at which a given ratio is reached (`calcPrice`);
  - the take-profit and stop-loss trigger prices of a long or a short (`triggerLong`, `triggerShort`);
  - the order prices placed behind those triggers after slippage (`closeLong`, `closeShort`).
- `position.dfy` is module `Holding`. It holds the position accounting shared
  by both engines: `addCont` with a positive quantity re-averages the hold
  price, and `minusCont` reduces the position. It also defines the close
  events the engines emit.
- `fixed_trigger.dfy` is module `FixedTrigger`, from `lib/trigger_price_fixed.js`.
  This is the fixed take-profit/stop-loss engine:
  - every add recomputes both triggers and both order prices from the new
    average, quantized to the price step;
  - a tick outside the band between the two triggers closes the position.
- `moving_trigger.dfy` is module `MovingTrigger`, from `lib/trigger_price_moving.js`.
  This is the trailing-stop engine:
  - each tick computes a band around the current price;
  - the stop follows the band only in the position's favour;
  - the position closes once the price reaches the stop.
- `real_arith.dfy` is module `RealArith`. It holds small facts about real
  multiplication and division that the pricing proofs cite step by step.

Prices, ratios and quantities are modelled as mathematical reals. The
engines are immutable records: each operation returns the next state. The
events that the source emits through `EventEmitter` are appended to an
`events` sequence in emission order. An omitted JavaScript argument is
`Absent`, and "falsy" means absent or zero.

## Model

| member | source | states |
|---|---|---|
| Calculator.ParseDecimal | lib/calculator.js:10 | The result is a whole multiple of the step with the sign of the input. It is no further from zero than the input and less than one step away from it, so this is truncation toward zero. |
| Calculator.ParseDecimalUnique | lib/calculator.js:10 | Any step multiple that truncates `v` toward zero in that sense is `parseDecimal(v)`, so the truncation property determines the result completely. |
| Calculator.TruncatesTowardZero | lib/calculator.js:10 | With a unit step, -1.5 quantizes to -1 and 1.9 to 1. This is `parseInt` truncation, not floor and not rounding. |
| Calculator.ParseDecimalIdempotent | lib/calculator.js:10 | Quantizing an already quantized price changes nothing. |
| Calculator.ParseDecimalOdd | lib/calculator.js:10 | Quantizing `-v` gives minus the quantization of `v`. |
| Calculator.ParseDecimalMonotone | lib/calculator.js:10 | Quantization preserves the order of prices. |
| Calculator.ParsePercent | lib/calculator.js:12 | The percentage is the quantization of `100 * v`: a step multiple that truncates `100 * v` toward zero. |
| Calculator.LongRatio | lib/calculator.js:31-32 | A long's return ratio. Its meaning is given by `LongRatioSign`, which says when it is positive, zero or negative, and by `CalcPriceInverse`, which says it is inverted by `UpperPrice`. |
| Calculator.ShortRatio | lib/calculator.js:31-33 | A short's return ratio. Its meaning is given by `ShortRatioSign` and `RatioMirror`, and by `CalcPriceInverse`, which says it is inverted by `LowerPrice`. |
| Calculator.UpperPrice | lib/calculator.js:51-52 | The price at which a long earns `ratio`, or a short loses it. `UpperPriceAboveOpen` places it above the open price. `LongRatioAtUpperPrice` and `UpperPriceAtLongRatio` make it the exact inverse of `LongRatio`. |
| Calculator.LowerPrice | lib/calculator.js:51-53 | The price at which a short earns `ratio`, or a long loses it. `LowerPriceBelowOpen` places it below the open price. `ShortRatioAtLowerPrice` and `LowerPriceAtShortRatio` make it the exact inverse of `ShortRatio`. |
| Calculator.LongRatioSign | lib/calculator.js:31-32 | For a positive price and leverage and a fee in [0, 1), a long's return ratio is positive, zero or negative exactly as the fee-adjusted close proceeds exceed, equal or fall short of the fee-adjusted open cost. |
| Calculator.ShortRatioSign | lib/calculator.js:31-33 | Under the same conditions, a short's return ratio is positive, zero or negative exactly as the fee-adjusted buy-back cost is below, equal to or above the fee-adjusted open proceeds. |
| Calculator.RatioMirror | lib/calculator.js:32-33 | A short's ratio is minus a long's ratio computed with the fee negated. |
| Calculator.UpperPriceAboveOpen | lib/calculator.js:51-52 | For a sane open price, fee and leverage and a non-negative ratio, the upper price is at or above the open price. It is strictly above when the ratio is positive. |
| Calculator.LowerPriceBelowOpen | lib/calculator.js:51-53 | Under the same conditions the lower price is at or below the open price, and strictly below for a positive ratio. |
| Calculator.LongRatioAtUpperPrice | lib/calculator.js:31-56 | Closing a long at `calcPrice`'s upper price for ratio `r` earns exactly `r`. |
| Calculator.UpperPriceAtLongRatio | lib/calculator.js:31-56 | `calcPrice`'s upper price for the ratio a long earns at close price `c` is `c` itself. |
| Calculator.ShortRatioAtLowerPrice | lib/calculator.js:31-56 | Closing a short at the lower price for ratio `r` earns exactly `r`. |
| Calculator.LowerPriceAtShortRatio | lib/calculator.js:31-56 | The lower price for the ratio a short earns at close price `c` is `c`. |
| Calculator.CalcPriceInverse | lib/calculator.js:31-56 | `calcPrice` inverts `calcRatio` in both directions: `c` is the upper price for `r` iff a long closing at `c` earns `r`. Likewise, `c` is the lower price for `r` iff a short earns `r`. |
| Calculator.TriggerLong | lib/calculator.js:78-85 | For a sane open price and non-negative ratios, a long's stop-loss trigger is at or below the open price and its take-profit trigger at or above it. Both are strict for positive ratios. |
| Calculator.TriggerShort | lib/calculator.js:87-94 | For a short the sides are reversed: the take-profit is at or below the open price and the stop-loss at or above it. Both are strict for positive ratios. |
| Calculator.TriggerRatios | lib/calculator.js:78-94 | A long's take-profit is where a long earns `winRatio`, and a short's take-profit is where a short earns `winRatio`. Each stop-loss is where the opposite direction earns `loseRatio`. |
| Calculator.TriggerShortSwapsLong | lib/calculator.js:78-94 | A short's triggers are a long's triggers with the two ratios exchanged and the two roles exchanged. |
| Calculator.CloseLong | lib/calculator.js:106-115 | A truthy slippage gives two order prices and a falsy one gives a single price. With a slippage in (0, 1), each order price is strictly between zero and its positive trigger. On the falsy path the second argument acts as the slippage. |
| Calculator.CloseShort | lib/calculator.js:117-126 | A truthy slippage gives two order prices, each strictly above its positive trigger when the slippage is positive. A zero slippage returns the take-profit trigger unchanged. For an omitted slippage this model prices the second argument as the slippage, see Findings. |
| Calculator.CloseShortMirrorsLong | lib/calculator.js:106-126 | For a truthy slippage `s`, `closeShort`'s order prices are `closeLong`'s order prices for `-s`. |
| Calculator.CloseLongDegenerate | lib/calculator.js:106-115 | The two-argument call `closeLong(p, s)` gives the take-profit order price of the three-argument call with slippage `s`. |
| Calculator.CloseShortDegenerate | lib/calculator.js:117-126 | The corrected two-argument call `closeShort(p, s)` gives the take-profit order price of the three-argument call with slippage `s`. |
| Calculator.CloseShortAsWritten | lib/calculator.js:118-120 | On the falsy path as written, the result is NaN exactly when the slippage is omitted. Otherwise it is the trigger unchanged. |
| Calculator.ShortOrderPriceExample | lib/trigger_price_moving.js:127 | The moving engine's call for a short stop at 10 with 0.05% slippage is NaN as written, and 10.005 once corrected. |
| Holding.Add | lib/trigger_price_fixed.js:44-51 | Adding a positive quantity raises the quantity by exactly that amount. The result is a valid non-empty position. |
| Holding.AddConservesCost | lib/trigger_price_fixed.js:44-51 | The total cost after an add is the old total cost plus what the added contracts cost. |
| Holding.AddToFlat | lib/trigger_price_moving.js:38-45 | Adding to a flat position makes the price paid the average hold price. |
| Holding.AddAverageBetween | lib/trigger_price_fixed.js:44-51 | Adding to an open position moves the average toward the price paid and never past it. |
| Holding.Minus | lib/trigger_price_fixed.js:74-87 | The position is unchanged exactly when the quantity is zero or exceeds the holding. Otherwise the holding drops by exactly that quantity. Validity is preserved, and a reduction that empties the position leaves it flat. |
| Holding.MinusConservesCost | lib/trigger_price_moving.js:51-64 | While contracts remain, the total cost after a reduction is the old cost less the value taken out. |
| Holding.MinusNegativeIsAdd | lib/trigger_price_fixed.js:74-87 | Reducing by a negative quantity is exactly an add of its magnitude at the same price. |
| Holding.MinusAtAverage | lib/trigger_price_fixed.js:74-87 | Reducing at the average price leaves the average unchanged. |
| Holding.MinusAllIsFlat | lib/trigger_price_fixed.js:175-186 | Reducing by the whole holding, as a close does, leaves the flat position whatever the price. |
| Holding.AddThenMinus | lib/trigger_price_fixed.js:41-87 | Adding `cont` contracts at a price and then reducing by `cont` at the same price restores the original position. |
| Holding.ZeroPriceNotFlat | lib/trigger_price_fixed.js:74-87 | A reduction can leave a zero average price on a non-empty position. So a zero hold price does not mean a flat position. |
| FixedTrigger.New | lib/trigger_price_fixed.js:17-38 | A new engine satisfies the invariant, holds nothing, has every level at zero and has emitted nothing. |
| FixedTrigger.CalcClosePrice | lib/trigger_price_fixed.js:89-129 | For a sane hold price and non-negative ratios, the hold price lies between the two triggers on the direction's sides. Each order price sits behind its positive trigger: below it for a long's sell when the slippage is in (0, 1), and above it for a short's buy when the slippage is positive. |
| FixedTrigger.LevelsRealiseRatios | lib/trigger_price_fixed.js:89-129 | The take-profit trigger earns `winRatio` in the engine's direction. The stop-loss trigger earns `loseRatio` in the opposite direction. |
| FixedTrigger.Close | lib/trigger_price_fixed.js:175-199 | A close leaves a valid position flat and appends exactly one event. Nothing else changes. |
| FixedTrigger.InBand | lib/trigger_price_fixed.js:163-170 | The price lies strictly between the two triggers, which is the negation of the close conditions at lines 163 and 167. `OnPriceChange` keeps the position exactly when this holds, and closes otherwise. |
| FixedTrigger.OnPriceChange | lib/trigger_price_fixed.js:157-173 | With no position the engine is unchanged. Otherwise:<br>- the price is recorded and the levels are kept;<br>- a price strictly inside the band keeps the position and emits nothing;<br>- any other price flattens the position and emits the direction's close event once;<br>- the invariant is kept. |
| FixedTrigger.MinusCont | lib/trigger_price_fixed.js:74-87 | The position becomes `Holding.Minus` of the old one: the quantity drops by `cont` and the average is the remaining cost over the remaining quantity (lines 82-84). Nothing else changes, so the levels keep their old values. The engine is unchanged exactly when the quantity is zero or exceeds the holding. |
| FixedTrigger.Reprice | lib/trigger_price_fixed.js:41-61 | After the bookkeeping part of an add, the position is the re-averaged one. Each stored level is the step truncation of the level `calcClosePrice` gives for the new average. |
| FixedTrigger.AddCont | lib/trigger_price_fixed.js:41-71 | A non-positive quantity is exactly a reduction by its magnitude. A positive one re-averages the position. It stores as the four levels the step truncations of `calcClosePrice` at the new average, and records the price. Then it either keeps the re-averaged position if the price lies strictly inside the new band, or flattens with one close event. The invariant is kept. |
| FixedTrigger.AddContAsWritten | lib/trigger_price_fixed.js:41-71 | As written, a positive add throws exactly when its price lies outside the new band. When it throws, the engine left behind is exactly the re-averaged one with all four levels recomputed and the price recorded, and no event was emitted. Every add that does not throw agrees with the corrected `AddCont`. |
| FixedTrigger.OnPriceChangeAsWritten | lib/trigger_price_fixed.js:157-173 | As written, a tick throws exactly when it should close. When it throws, the engine left behind is the old one with only the price recorded: position, levels and events are unchanged. Ticks that do not close agree with the corrected engine. |
| FixedTrigger.OpenLongExample | test/test_calculator.js:10-49 | Opening one long contract at 6.320 with 20x leverage, a 0.03% fee, 10%/3% ratios, 0.05% slippage and step 0.001 sets the levels to 6.355/6.352 and 6.306/6.303, and it does not close. |
| FixedTrigger.TickLongExample | lib/trigger_price_fixed.js:157-173 | From that state, a tick at 6.330 only records the price. A tick at 6.360 closes with one `onCloseLong`, and as written that tick throws. |
| FixedTrigger.OpenShortExample | test/test_calculator.js:51-63 | The short engine opened the same way has triggers 6.284/6.333 and order prices 6.287/6.336. |
| FixedTrigger.TickShortExample | lib/trigger_price_fixed.js:157-173 | From that state, a tick at 6.280 closes the short with one `onCloseShort`. |
| MovingTrigger.New | lib/trigger_price_moving.js:13-32 | A new engine satisfies the invariant, holds nothing and has emitted nothing. Its stop, move line and order price are all zero, so it is not initialised, and the zero order price is the one for the zero stop. |
| MovingTrigger.OrderPrice | lib/trigger_price_moving.js:110-127 | With a slippage in (0, 1), a long's order price is strictly between zero and its positive stop. With a positive slippage, a short's is strictly above it. The short's price follows the corrected rule of the second Finding; as written, line 127 yields NaN. |
| MovingTrigger.Move | lib/trigger_price_moving.js:91-135 | A move sets the stop and the move line to the step truncations of the band's far and near edges. It sets the order price to the order price of the new stop (`closeLong`, below it for a long when the slippage is in (0, 1); the corrected `closeShort`, above it for a short when the slippage is positive) and changes nothing else. |
| MovingTrigger.Close | lib/trigger_price_moving.js:149-173 | A close leaves a valid position flat and appends exactly one event. Nothing else changes. |
| MovingTrigger.ShouldMove | lib/trigger_price_moving.js:104-135 | The move condition of lines 106-107 and 122-123. The stop moves while it or the move line is zero. After that it moves only when the band edge is on the position's profit side of the old stop and the price has crossed the move line. `OnPriceChange` and `AddCont` state the levels under it, and `RatchetStep` shows it never moves a stop against the position. |
| MovingTrigger.StopHit | lib/trigger_price_moving.js:137-144 | The price has reached the stop: at or below it for a long, at or above it for a short. `OnPriceChange` closes with one event exactly when this holds after the move. |
| MovingTrigger.OnPriceChange | lib/trigger_price_moving.js:85-147 | With no position nothing changes. Otherwise:<br>- the price is recorded;<br>- the stop and the move line stay put unless a move is due, and a move sets them to the truncated band edges;<br>- the position closes with one event exactly when the price has reached the resulting stop;<br>- the invariant is kept. |
| MovingTrigger.TickPlacesOrder | lib/trigger_price_moving.js:104-135 | After a tick that moves the stop, the order price is the one for the new stop: `closeLong(stop, slippage)` for a long (line 110), and the corrected `closeShort` for a short (line 127). An engine whose order price matches its stop keeps that property across every tick. |
| MovingTrigger.MinusCont | lib/trigger_price_moving.js:51-64 | The position becomes `Holding.Minus` of the old one: the quantity drops by `cont` and the average is the remaining cost over the remaining quantity (lines 59-61). Nothing else changes. The engine is unchanged exactly when the quantity is zero or exceeds the holding. |
| MovingTrigger.AddCont | lib/trigger_price_moving.js:35-48 | A non-positive quantity is exactly a reduction. A positive one re-averages the position and records the price. If a move is due, and it always is before the first fill sets the stop, the stop and move line become the step truncations of the band edges around the price. Otherwise they stay put. Then the add either keeps the re-averaged position or, if the stop is reached, flattens with one event. An add never moves an initialised stop against the position. A move sets the order price to the one for the new stop, and an engine whose order price matches its stop keeps that property. |
| MovingTrigger.RatchetStep | lib/trigger_price_moving.js:104-135 | One tick never lowers an initialised long stop and never raises an initialised short stop. |
| MovingTrigger.StaysInitialized | lib/trigger_price_moving.js:104-135 | A tick whose band lies at least one step above zero keeps an initialised engine initialised. |
| MovingTrigger.Ratchet | lib/trigger_price_moving.js:85-147 | Over any sequence of such ticks, an initialised engine stays initialised. A long's stop never decreases and a short's never increases. |
| MovingTrigger.FirstLongTickKeepsPosition | lib/trigger_price_moving.js:104-119 | For a positive price and leverage, a fee in [0, 1) and a positive stop distance, a long's first tick sets the stop strictly below the price and never closes. |
| MovingTrigger.FirstShortTickCanClose | lib/trigger_price_moving.js:120-144 | A short's first tick can close at once. With step 1, a tick at 10 puts the band edge at 10.5, which truncates to 10, and 10 >= 10 closes. |
| MovingTrigger.OpenExample | lib/trigger_price_moving.js:35-48 | Opening one long contract at 6.320 with a 3% stop distance sets the stop at 6.306 and the move line at 6.333. |
| MovingTrigger.TrailExample | lib/trigger_price_moving.js:104-119 | A tick at 6.400 crosses the move line, so the stop trails up to 6.386 and the move line to 6.413. |
| MovingTrigger.FallExample | lib/trigger_price_moving.js:137-140 | A fall to 6.350 leaves the stop at 6.386, so the long closes with one `onCloseLong`. |
| MovingTrigger.ReAddExample | lib/trigger_price_moving.js:35-48 | Buying again at 6.300 after that close inherits the 6.386 stop, and the new position closes at once. |

## Left out

- Floating point: every quantity is a real. IEEE rounding, overflow and the
  exact bits `parseInt(v / decimal)` sees are not modelled. For example, a
  float quotient just below a whole number can truncate one step lower than
  the real quotient does.
- `parseInt` string conversion: the model truncates the real quotient. The
  string round trip that `parseInt` performs on very large or very small
  numbers (exponent notation) is not modelled.
- JavaScript coercion: string prices (the test passes `'6.320'`), `null`
  and other non-numbers are not modelled. An argument is a real or absent.
- Logging: every `console.log` is left out.
- Event listeners: `EventEmitter` is reduced to the log of emitted event
  names. Listener code cannot be seen and is not run.
- `calcLiquidation` is an empty placeholder in the source.
- `calcProfitRatio` and `pnlRatio`: the engines never call
  `calcProfitRatio`, and `pnlRatio` is only logged.
- `index.js` and the demo scripts only re-export or print.
- The division-by-zero cases are excluded by `requires` rather than
  modelled as `Infinity`/`NaN`. These are a zero leverage, a fee of
  exactly 1 or -1, a zero open price in `calcRatio`, and a zero price step.
- A negative price step is excluded as a domain restriction: quantization
  requires a positive step. Over reals, the source gives the same result
  for a negative step `d` as for `-d`, because truncation is odd.
- FixedTrigger.CalcClosePrice: the fixed engine requires a truthy slippage.
  With a falsy one, `closeLong`/`closeShort` return a bare number. The
  destructuring in `calcClosePrice` then yields `undefined` order prices,
  and that state is not modelled.
- The engines' `minusCont` is modelled for any real quantity, as written,
  including a negative one. A negative quantity re-averages the position
  exactly as an add does (`Holding.MinusNegativeIsAdd`), but unlike
  `addCont` it neither recomputes the levels nor handles a tick.

## Notes

- Both engines close by calling `minusCont(holdCont, holdPrice)`, so a close
  leaves the position flat (`Holding.MinusAllIsFlat`, `FixedTrigger.Close`,
  `MovingTrigger.Close`).
- Over reals, truncation toward zero is odd: quantizing `-v` gives minus the
  quantization of `v` (`Calculator.ParseDecimalOdd`).
- A position can hold contracts at a zero average price. Reducing two
  contracts averaged at 10 by one contract valued at 20 does this
  (`Holding.ZeroPriceNotFlat`).
- The 6.350 tick in `MovingTrigger.FallExample` closes the long because the
  trailed stop, 6.386, is above it.

## Findings

| source | as written | input that shows it | evidently intended | confidence | as-written member | corrected member |
|---|---|---|---|---|---|---|
| lib/trigger_price_fixed.js:164,168 | `onPriceChange` calls `this.onCloseLong()` / `this.onCloseShort()`, which the class does not define, so every triggered close throws a `TypeError`. The price is recorded, the position stays open and no event is emitted. | The long example engine opened at 6.320, then a tick at 6.360 (`FixedTrigger.TickLongExample`). The same throw ends any add priced outside the new band, because `addCont` returns `this.onPriceChange(price)` at line 70. The position and levels have already been updated by then (`FixedTrigger.AddContAsWritten`). | Call `closeLong()` / `closeShort()`, which flatten the position and emit the close event. | not executed | FixedTrigger.OnPriceChangeAsWritten, FixedTrigger.AddContAsWritten | FixedTrigger.OnPriceChange, FixedTrigger.AddCont |
| lib/calculator.js:118-120 | On the falsy-slippage path, `closeShort` multiplies by `1 + slippage` with the slippage itself falsy. The moving engine's two-argument call `closeShort(triggerPrice, slippage)` therefore gives `NaN` as the short's order price. | `closeShort(10, 0.0005)` with the third argument omitted (`Calculator.ShortOrderPriceExample`). | Read the second argument as the slippage, mirroring `closeLong`'s falsy path. The result is then `trigger * (1 + slippage)` (`Calculator.CloseShortDegenerate`). | not executed | Calculator.CloseShortAsWritten | Calculator.CloseShort |
