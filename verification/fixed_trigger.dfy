/**
 The fixed take-profit / stop-loss engine (`FixedTriggerPrice`). Every
 positive add re-averages the position and recomputes, from the new
 average, a take-profit and a stop-loss trigger plus the order price of
 each, all quantized to the price step. A price tick closes the whole
 position and emits `onCloseLong` / `onCloseShort` once the price leaves the
 band between the two triggers.

 The engine is an immutable record; each operation returns the next record.
 Emitted events are appended to `events` in emission order.
 */
module FixedTrigger {

  import opened Holding
  import Calculator

  /** The constructor arguments. `longshort > 0` selects a long engine,
      anything else a short one. */
  datatype Config = Config(
    longshort: real,
    leverage: real,
    fee: real,
    winRatio: real,
    loseRatio: real,
    slippage: real,
    decimal: real)

  predicate IsLong(cfg: Config) {
    cfg.longshort > 0.0
  }

  /** The arguments under which every formula the engine uses is defined: no
      division by zero, a positive price step, and a truthy slippage (with a
      falsy one `closeLong`/`closeShort` return a bare number and the order
      prices would be undefined). */
  predicate WellFormed(cfg: Config) {
    cfg.leverage != 0.0 && cfg.fee != 1.0 && cfg.fee != -1.0 &&
    cfg.slippage != 0.0 && cfg.decimal > 0.0
  }

  datatype Engine = Engine(
    cfg: Config,
    pos: Position,
    currPrice: real,
    triggerWinPrice: real,
    triggerLosePrice: real,
    closeWinPrice: real,
    closeLosePrice: real,
    events: seq<Event>)

  /** What every engine reachable from `New` satisfies. */
  predicate Inv(e: Engine) {
    WellFormed(e.cfg) && Valid(e.pos) &&
    Calculator.IsStep(e.triggerWinPrice, e.cfg.decimal) &&
    Calculator.IsStep(e.triggerLosePrice, e.cfg.decimal) &&
    Calculator.IsStep(e.closeWinPrice, e.cfg.decimal) &&
    Calculator.IsStep(e.closeLosePrice, e.cfg.decimal)
  }

  /** The constructor: flat, every price zero, nothing emitted. */
  function New(cfg: Config): (e: Engine)
    requires WellFormed(cfg)
    ensures Inv(e) && e.cfg == cfg && e.pos == Flat && e.events == []
    ensures e.triggerWinPrice == e.triggerLosePrice == e.closeWinPrice == e.closeLosePrice == 0.0
  {
    Calculator.StepOfInt(0, cfg.decimal);
    Engine(cfg, Flat, 0.0, 0.0, 0.0, 0.0, 0.0, [])
  }

  /** The event a close emits for this direction. */
  function CloseEvent(cfg: Config): Event {
    if IsLong(cfg) then OnCloseLong else OnCloseShort
  }

  /** The price lies strictly between the two triggers: on the profit side of
      the stop-loss and on the loss side of the take-profit. */
  predicate InBand(e: Engine, price: real) {
    if IsLong(e.cfg) then e.triggerLosePrice < price < e.triggerWinPrice
    else e.triggerWinPrice < price < e.triggerLosePrice
  }

  /** Unquantized trigger and order prices for one average hold price. */
  datatype Levels = Levels(triggerWin: real, triggerLose: real, closeWin: real, closeLose: real)

  /** `calcClosePrice`: the trigger levels of the direction, and an order price
      for each, offset by the slippage away from the market (below the
      trigger for a long's sell, above it for a short's buy). */
  function CalcClosePrice(cfg: Config, holdPrice: real): (lv: Levels)
    requires WellFormed(cfg)
    ensures Calculator.Sane(holdPrice, cfg.fee, cfg.leverage) && cfg.winRatio >= 0.0 && cfg.loseRatio >= 0.0 ==>
              if IsLong(cfg) then lv.triggerLose <= holdPrice <= lv.triggerWin
              else lv.triggerWin <= holdPrice <= lv.triggerLose
    ensures IsLong(cfg) && 0.0 < cfg.slippage < 1.0 ==>
              (lv.triggerWin > 0.0 ==> 0.0 < lv.closeWin < lv.triggerWin) &&
              (lv.triggerLose > 0.0 ==> 0.0 < lv.closeLose < lv.triggerLose)
    ensures !IsLong(cfg) && 0.0 < cfg.slippage ==>
              (lv.triggerWin > 0.0 ==> lv.closeWin > lv.triggerWin) &&
              (lv.triggerLose > 0.0 ==> lv.closeLose > lv.triggerLose)
  {
    if IsLong(cfg) then
      var t := Calculator.TriggerLong(holdPrice, cfg.winRatio, cfg.loseRatio, cfg.fee, cfg.leverage);
      var c := Calculator.CloseLong(t.triggerWin, t.triggerLose, Calculator.Given(cfg.slippage));
      Levels(t.triggerWin, t.triggerLose, c.closeWin, c.closeLose)
    else
      var t := Calculator.TriggerShort(holdPrice, cfg.winRatio, cfg.loseRatio, cfg.fee, cfg.leverage);
      var c := Calculator.CloseShort(t.triggerWin, t.triggerLose, Calculator.Given(cfg.slippage));
      Levels(t.triggerWin, t.triggerLose, c.closeWin, c.closeLose)
  }

  /** Each trigger is where the position realises its configured ratio: the
      take-profit returns `winRatio` to the engine's direction, and the
      stop-loss is where the opposite direction would return `loseRatio`. */
  lemma LevelsRealiseRatios(cfg: Config, holdPrice: real)
    requires WellFormed(cfg) && holdPrice != 0.0
    ensures IsLong(cfg) ==>
              Calculator.LongRatio(holdPrice, CalcClosePrice(cfg, holdPrice).triggerWin, cfg.fee, cfg.leverage) == cfg.winRatio &&
              Calculator.ShortRatio(holdPrice, CalcClosePrice(cfg, holdPrice).triggerLose, cfg.fee, cfg.leverage) == cfg.loseRatio
    ensures !IsLong(cfg) ==>
              Calculator.ShortRatio(holdPrice, CalcClosePrice(cfg, holdPrice).triggerWin, cfg.fee, cfg.leverage) == cfg.winRatio &&
              Calculator.LongRatio(holdPrice, CalcClosePrice(cfg, holdPrice).triggerLose, cfg.fee, cfg.leverage) == cfg.loseRatio
  {
    Calculator.TriggerRatios(holdPrice, cfg.winRatio, cfg.loseRatio, cfg.fee, cfg.leverage);
  }

  /** `closeLong` / `closeShort`: sell (or buy back) every contract at the
      hold price, which leaves the position flat, and emit the close event.
      Nothing else changes. */
  function Close(e: Engine, ev: Event): (r: Engine)
    ensures Valid(e.pos) ==> r.pos == Flat
    ensures r.events == e.events + [ev]
    ensures r.(pos := e.pos, events := e.events) == e
  {
    e.(pos := Minus(e.pos, e.pos.holdCont, e.pos.holdPrice), events := e.events + [ev])
  }

  /** `onPriceChange`: with no position nothing happens; otherwise the price
      is recorded and, once it reaches either trigger, the position is closed
      with the direction's event. */
  function OnPriceChange(e: Engine, price: real): (r: Engine)
    requires Inv(e)
    ensures Inv(r) && r.cfg == e.cfg
    ensures e.pos.holdCont == 0.0 ==> r == e
    ensures e.pos.holdCont > 0.0 ==>
              r.currPrice == price &&
              r.triggerWinPrice == e.triggerWinPrice && r.triggerLosePrice == e.triggerLosePrice &&
              r.closeWinPrice == e.closeWinPrice && r.closeLosePrice == e.closeLosePrice
    ensures e.pos.holdCont > 0.0 && InBand(e, price) ==> r.pos == e.pos && r.events == e.events
    ensures e.pos.holdCont > 0.0 && !InBand(e, price) ==>
              r.pos == Flat && r.events == e.events + [CloseEvent(e.cfg)]
  {
    if e.pos.holdCont <= 0.0 then e
    else
      var e1 := e.(currPrice := price);
      if IsLong(e.cfg) && (price <= e.triggerLosePrice || price >= e.triggerWinPrice) then
        Close(e1, OnCloseLong)
      else if !IsLong(e.cfg) && (price >= e.triggerLosePrice || price <= e.triggerWinPrice) then
        Close(e1, OnCloseShort)
      else
        e1
  }

  /** `minusCont`: only the position changes; the trigger and order prices
      keep the values computed for the position before the reduction. */
  function MinusCont(e: Engine, cont: real, price: real): (r: Engine)
    requires Inv(e)
    ensures Inv(r)
    ensures r.pos == Minus(e.pos, cont, price)
    ensures r.(pos := e.pos) == e
    ensures (cont == 0.0 || e.pos.holdCont < cont) <==> r == e
  {
    e.(pos := Minus(e.pos, cont, price))
  }

  /** Quantizing every level of `lv` to the price step. */
  function Quantized(lv: Levels, d: real): (q: Levels)
    requires d > 0.0
    ensures Calculator.Truncation(lv.triggerWin, d, q.triggerWin)
    ensures Calculator.Truncation(lv.triggerLose, d, q.triggerLose)
    ensures Calculator.Truncation(lv.closeWin, d, q.closeWin)
    ensures Calculator.Truncation(lv.closeLose, d, q.closeLose)
  {
    Levels(Calculator.ParseDecimal(lv.triggerWin, d), Calculator.ParseDecimal(lv.triggerLose, d),
           Calculator.ParseDecimal(lv.closeWin, d), Calculator.ParseDecimal(lv.closeLose, d))
  }

  /** The engine after the bookkeeping part of a positive `addCont`: the new
      average position and the quantized levels computed from it. */
  function Reprice(e: Engine, cont: real, price: real): (r: Engine)
    requires Inv(e) && cont > 0.0
    ensures Inv(r) && r.cfg == e.cfg && r.events == e.events && r.currPrice == e.currPrice
    ensures r.pos == Add(e.pos, cont, price)
    ensures var lv := CalcClosePrice(e.cfg, r.pos.holdPrice);
            var d := e.cfg.decimal;
            Calculator.Truncation(lv.triggerWin, d, r.triggerWinPrice) &&
            Calculator.Truncation(lv.triggerLose, d, r.triggerLosePrice) &&
            Calculator.Truncation(lv.closeWin, d, r.closeWinPrice) &&
            Calculator.Truncation(lv.closeLose, d, r.closeLosePrice)
  {
    var pos := Add(e.pos, cont, price);
    var lv := Quantized(CalcClosePrice(e.cfg, pos.holdPrice), e.cfg.decimal);
    e.(pos := pos, triggerWinPrice := lv.triggerWin, triggerLosePrice := lv.triggerLose,
       closeWinPrice := lv.closeWin, closeLosePrice := lv.closeLose)
  }

  /** `addCont`: a non-positive quantity is a reduction by its magnitude and
      nothing more; a positive one re-averages the position, recomputes the
      levels from the new average and then handles `price` as a tick, so an
      add at a price outside the new band closes at once. */
  function AddCont(e: Engine, cont: real, price: real): (r: Engine)
    requires Inv(e)
    ensures Inv(r) && r.cfg == e.cfg
    ensures cont <= 0.0 ==> r == MinusCont(e, -cont, price)
    ensures cont > 0.0 ==> r.currPrice == price
    ensures cont > 0.0 && InBand(Reprice(e, cont, price), price) ==>
              r.pos == Add(e.pos, cont, price) && r.events == e.events
    ensures cont > 0.0 && !InBand(Reprice(e, cont, price), price) ==>
              r.pos == Flat && r.events == e.events + [CloseEvent(e.cfg)]
    ensures cont > 0.0 ==>
              var lv := Quantized(CalcClosePrice(e.cfg, Add(e.pos, cont, price).holdPrice), e.cfg.decimal);
              r.triggerWinPrice == lv.triggerWin && r.triggerLosePrice == lv.triggerLose &&
              r.closeWinPrice == lv.closeWin && r.closeLosePrice == lv.closeLose
  {
    if cont <= 0.0 then MinusCont(e, -cont, price)
    else OnPriceChange(Reprice(e, cont, price), price)
  }

  /** The outcome of the source's `onPriceChange` as written: it calls
      `this.onCloseLong()` / `this.onCloseShort()`, which the class does not
      define, so a triggered close throws a `TypeError` after the price was
      recorded. */
  datatype Outcome = Returned(engine: Engine) | ThrewTypeError(engine: Engine)

  function OnPriceChangeAsWritten(e: Engine, price: real): (o: Outcome)
    requires Inv(e)
    ensures o.ThrewTypeError? <==> e.pos.holdCont > 0.0 && !InBand(e, price)
    ensures o.Returned? ==> o.engine == OnPriceChange(e, price)
    ensures o.ThrewTypeError? ==> o.engine == e.(currPrice := price)
  {
    if e.pos.holdCont <= 0.0 then Returned(e)
    else
      var e1 := e.(currPrice := price);
      if IsLong(e.cfg) && (price <= e.triggerLosePrice || price >= e.triggerWinPrice) then
        ThrewTypeError(e1)
      else if !IsLong(e.cfg) && (price >= e.triggerLosePrice || price <= e.triggerWinPrice) then
        ThrewTypeError(e1)
      else
        Returned(e1)
  }

  /** `addCont` as written: its positive branch ends in `onPriceChange`, so an
      add priced outside the new band throws too, after the position has been
      re-averaged and the levels recomputed. */
  function AddContAsWritten(e: Engine, cont: real, price: real): (o: Outcome)
    requires Inv(e)
    ensures o.ThrewTypeError? <==> cont > 0.0 && !InBand(Reprice(e, cont, price), price)
    ensures o.Returned? ==> o.engine == AddCont(e, cont, price)
    ensures o.ThrewTypeError? ==> o.engine == Reprice(e, cont, price).(currPrice := price)
  {
    if cont <= 0.0 then Returned(MinusCont(e, -cont, price))
    else OnPriceChangeAsWritten(Reprice(e, cont, price), price)
  }

  /** The example configuration: 20x leverage, a 0.03% fee, take profit at a
      10% return, stop loss at 3%, 0.05% slippage and a 0.001 price step. */
  const Example := Config(1.0, 20.0, 0.0003, 0.1, 0.03, 0.0005, 0.001)

  /** The long engine after one contract was bought at 6.320: take-profit
      6.355 (order 6.352), stop-loss 6.306 (order 6.303). */
  const ExampleOpened := Engine(Example, Position(6.32, 1.0), 6.32, 6.355, 6.306, 6.352, 6.303, [])

  /** Opening one long contract at 6.320 on a fresh engine sets those levels
      and does not close. */
  lemma OpenLongExample()
    ensures AddCont(New(Example), 1.0, 6.32) == ExampleOpened
  {
    ExampleRepriced();
    var r := Reprice(New(Example), 1.0, 6.32);
    assert InBand(r, 6.32);
  }

  /** From there a tick at 6.330 only records the price, a tick at 6.360
      reaches the take-profit and closes, and as written that tick throws. */
  lemma TickLongExample()
    ensures OnPriceChange(ExampleOpened, 6.33) == ExampleOpened.(currPrice := 6.33)
    ensures OnPriceChange(ExampleOpened, 6.36)
         == ExampleOpened.(currPrice := 6.36, pos := Flat, events := [OnCloseLong])
    ensures OnPriceChangeAsWritten(ExampleOpened, 6.36) == ThrewTypeError(ExampleOpened.(currPrice := 6.36))
  {
    Calculator.MilliStep(6.355);
    Calculator.MilliStep(6.306);
    Calculator.MilliStep(6.352);
    Calculator.MilliStep(6.303);
  }

  /** The bookkeeping half of the scenario's opening add. */
  lemma ExampleRepriced()
    ensures var r := Reprice(New(Example), 1.0, 6.32);
            r.pos == Position(6.32, 1.0) && r.events == [] &&
            r.triggerWinPrice == 6.355 && r.closeWinPrice == 6.352 &&
            r.triggerLosePrice == 6.306 && r.closeLosePrice == 6.303
  {
    AddToFlat(Flat, 1.0, 6.32);
    ExampleLongLevels();
  }

  lemma ExampleLongLevels()
    ensures Quantized(CalcClosePrice(Example, 6.32), 0.001) == Levels(6.355, 6.306, 6.352, 6.303)
  {
    var win := Calculator.UpperPrice(6.32, 0.1, 0.0003, 20.0);
    var lose := Calculator.LowerPrice(6.32, 0.03, 0.0003, 20.0);
    assert win == (0.1 / 20.0 + 1.0) * (6.32 * 1.0003) / 0.9997;
    assert lose == (1.0 - 0.03 / 20.0) * (6.32 * 0.9997) / 1.0003;
    assert CalcClosePrice(Example, 6.32)
        == Levels(win, lose, win * (1.0 - 0.0005), lose * (1.0 - 0.0005));
    Calculator.MilliPin(win, 6.355);
    Calculator.MilliPin(lose, 6.306);
    Calculator.MilliPin(win * (1.0 - 0.0005), 6.352);
    Calculator.MilliPin(lose * (1.0 - 0.0005), 6.303);
  }

  /** The same configuration for a short engine. */
  const ExampleShort := Example.(longshort := -1.0)

  /** A short opened at 6.320: take-profit 6.284 (order 6.287), stop-loss
      6.333 (order 6.336). */
  const ExampleShortOpened := Engine(ExampleShort, Position(6.32, 1.0), 6.32, 6.284, 6.333, 6.287, 6.336, [])

  lemma OpenShortExample()
    ensures AddCont(New(ExampleShort), 1.0, 6.32) == ExampleShortOpened
  {
    ShortRepriced();
    var r := Reprice(New(ExampleShort), 1.0, 6.32);
    assert InBand(r, 6.32);
  }

  /** A tick at 6.280 reaches the short's take-profit and closes. */
  lemma TickShortExample()
    ensures OnPriceChange(ExampleShortOpened, 6.28)
         == ExampleShortOpened.(currPrice := 6.28, pos := Flat, events := [OnCloseShort])
  {
    Calculator.MilliStep(6.284);
    Calculator.MilliStep(6.333);
    Calculator.MilliStep(6.287);
    Calculator.MilliStep(6.336);
  }

  lemma ShortRepriced()
    ensures var r := Reprice(New(ExampleShort), 1.0, 6.32);
            r.pos == Position(6.32, 1.0) && r.events == [] &&
            r.triggerWinPrice == 6.284 && r.closeWinPrice == 6.287 &&
            r.triggerLosePrice == 6.333 && r.closeLosePrice == 6.336
  {
    AddToFlat(Flat, 1.0, 6.32);
    ExampleShortLevels();
  }

  lemma ExampleShortLevels()
    ensures Quantized(CalcClosePrice(ExampleShort, 6.32), 0.001) == Levels(6.284, 6.333, 6.287, 6.336)
  {
    var win := Calculator.LowerPrice(6.32, 0.1, 0.0003, 20.0);
    var lose := Calculator.UpperPrice(6.32, 0.03, 0.0003, 20.0);
    assert win == (1.0 - 0.1 / 20.0) * (6.32 * 0.9997) / 1.0003;
    assert lose == (0.03 / 20.0 + 1.0) * (6.32 * 1.0003) / 0.9997;
    assert CalcClosePrice(ExampleShort, 6.32)
        == Levels(win, lose, win * (1.0 + 0.0005), lose * (1.0 + 0.0005));
    Calculator.MilliPin(win, 6.284);
    Calculator.MilliPin(lose, 6.333);
    Calculator.MilliPin(win * (1.0 + 0.0005), 6.287);
    Calculator.MilliPin(lose * (1.0 + 0.0005), 6.336);
  }
}
