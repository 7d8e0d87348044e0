/**
 The moving stop-loss engine (`MovingTriggerPrice`). There is no take-profit:
 a single stop (`triggerPrice`) trails the market. On each tick the band
 `calcPrice(price, radio)` is computed around the current price; the stop
 moves to the band's far side (the lower price for a long, the upper price
 for a short) when it is uninitialised, or when that would move it in the
 position's favour and the price has crossed the move line (`movePrice`,
 the band's near side at the last move). The position closes once the price
 reaches the stop.

 As in the fixed engine, the state is an immutable record and emitted events
 are appended to `events`.
 */
module MovingTrigger {

  import opened Holding
  import Calculator

  /** The constructor arguments. `longshort > 0` selects a long engine,
      anything else a short one; `radio` is the stop distance as a return
      ratio. */
  datatype Config = Config(
    longshort: real,
    leverage: real,
    fee: real,
    radio: real,
    slippage: real,
    decimal: real)

  predicate IsLong(cfg: Config) {
    cfg.longshort > 0.0
  }

  /** No division by zero in `calcPrice`, and a positive price step. */
  predicate WellFormed(cfg: Config) {
    cfg.leverage != 0.0 && cfg.fee != 1.0 && cfg.fee != -1.0 && cfg.decimal > 0.0
  }

  datatype Engine = Engine(
    cfg: Config,
    pos: Position,
    currPrice: real,
    movePrice: real,
    triggerPrice: real,
    closePrice: real,
    events: seq<Event>)

  /** What every engine reachable from `New` satisfies. */
  predicate Inv(e: Engine) {
    WellFormed(e.cfg) && Valid(e.pos) &&
    Calculator.IsStep(e.triggerPrice, e.cfg.decimal) &&
    Calculator.IsStep(e.movePrice, e.cfg.decimal)
  }

  /** The order price is the one placed behind the current stop. Every engine
      reachable from `New` satisfies this too; it is kept apart from `Inv`
      so that the stop-ratchet proofs need not reason about it. */
  predicate OrderPlaced(e: Engine) {
    e.closePrice == OrderPrice(e.cfg, e.triggerPrice)
  }

  /** Both the stop and the move line have been set to non-zero prices. */
  predicate Initialized(e: Engine) {
    e.triggerPrice != 0.0 && e.movePrice != 0.0
  }

  /** The constructor: flat, every price zero, nothing emitted. */
  function New(cfg: Config): (e: Engine)
    requires WellFormed(cfg)
    ensures Inv(e) && e.cfg == cfg && e.pos == Flat && e.events == [] && !Initialized(e)
    ensures e.triggerPrice == 0.0 && e.movePrice == 0.0 && e.closePrice == 0.0
    ensures OrderPlaced(e)
  {
    Calculator.StepOfInt(0, cfg.decimal);
    Engine(cfg, Flat, 0.0, 0.0, 0.0, 0.0, [])
  }

  function CloseEvent(cfg: Config): Event {
    if IsLong(cfg) then OnCloseLong else OnCloseShort
  }

  /** The band edge the stop moves to: the price at which the position would
      lose `radio`. */
  function StopLevel(cfg: Config, price: real): real
    requires WellFormed(cfg)
  {
    if IsLong(cfg) then Calculator.LowerPrice(price, cfg.radio, cfg.fee, cfg.leverage)
    else Calculator.UpperPrice(price, cfg.radio, cfg.fee, cfg.leverage)
  }

  /** The band edge the move line is set to: the price at which the position
      would gain `radio`. */
  function MoveLevel(cfg: Config, price: real): real
    requires WellFormed(cfg)
  {
    if IsLong(cfg) then Calculator.UpperPrice(price, cfg.radio, cfg.fee, cfg.leverage)
    else Calculator.LowerPrice(price, cfg.radio, cfg.fee, cfg.leverage)
  }

  /** Whether a tick at `price` moves the stop: always while uninitialised;
      otherwise only when the band edge `StopLevel` is on the position's
      profit side of the old stop and the price is beyond the move line. */
  predicate ShouldMove(e: Engine, price: real)
    requires WellFormed(e.cfg)
  {
    !Initialized(e) ||
    (if IsLong(e.cfg) then e.triggerPrice < StopLevel(e.cfg, price) && price > e.movePrice
     else e.triggerPrice > StopLevel(e.cfg, price) && price < e.movePrice)
  }

  /** The order price for a stop: `closeLong(stop, slippage)` below it for a
      long, `closeShort(stop, slippage)` above it for a short. */
  function OrderPrice(cfg: Config, stop: real): (c: real)
    ensures IsLong(cfg) && 0.0 < cfg.slippage < 1.0 && stop > 0.0 ==> 0.0 < c < stop
    ensures !IsLong(cfg) && 0.0 < cfg.slippage && stop > 0.0 ==> c > stop
  {
    if IsLong(cfg) then Calculator.CloseLong(stop, cfg.slippage, Calculator.Absent).price
    else Calculator.CloseShort(stop, cfg.slippage, Calculator.Absent).price
  }

  /** Moving the stop and the move line to the band around `price`, both
      quantized to the price step. */
  function Move(e: Engine, price: real): (r: Engine)
    requires Inv(e)
    ensures Inv(r)
    ensures Calculator.Truncation(StopLevel(e.cfg, price), e.cfg.decimal, r.triggerPrice)
    ensures Calculator.Truncation(MoveLevel(e.cfg, price), e.cfg.decimal, r.movePrice)
    ensures r.closePrice == OrderPrice(e.cfg, r.triggerPrice)
    ensures IsLong(e.cfg) && 0.0 < e.cfg.slippage < 1.0 && r.triggerPrice > 0.0 ==>
              0.0 < r.closePrice < r.triggerPrice
    ensures !IsLong(e.cfg) && 0.0 < e.cfg.slippage && r.triggerPrice > 0.0 ==>
              r.closePrice > r.triggerPrice
    ensures r.(movePrice := e.movePrice, triggerPrice := e.triggerPrice, closePrice := e.closePrice) == e
  {
    var d := e.cfg.decimal;
    var stop := Calculator.ParseDecimal(StopLevel(e.cfg, price), d);
    e.(triggerPrice := stop,
       movePrice := Calculator.ParseDecimal(MoveLevel(e.cfg, price), d),
       closePrice := OrderPrice(e.cfg, stop))
  }

  /** The price has reached the stop: at or below it for a long, at or above
      it for a short. */
  predicate StopHit(e: Engine, price: real) {
    if IsLong(e.cfg) then price <= e.triggerPrice else price >= e.triggerPrice
  }

  /** `closeLong` / `closeShort`: flatten the position and emit the event. */
  function Close(e: Engine, ev: Event): (r: Engine)
    ensures Valid(e.pos) ==> r.pos == Flat
    ensures r.events == e.events + [ev]
    ensures r.(pos := e.pos, events := e.events) == e
  {
    e.(pos := Minus(e.pos, e.pos.holdCont, e.pos.holdPrice), events := e.events + [ev])
  }

  /** `onPriceChange`: with no position nothing happens. Otherwise the price
      is recorded, the stop moves if it should, and the position closes with
      the direction's event if the price has reached the (possibly moved)
      stop. */
  function OnPriceChange(e: Engine, price: real): (r: Engine)
    requires Inv(e)
    ensures Inv(r) && r.cfg == e.cfg
    ensures e.pos.holdCont == 0.0 ==> r == e
    ensures e.pos.holdCont > 0.0 ==> r.currPrice == price
    ensures e.pos.holdCont > 0.0 && !ShouldMove(e, price) ==>
              r.triggerPrice == e.triggerPrice && r.movePrice == e.movePrice && r.closePrice == e.closePrice
    ensures e.pos.holdCont > 0.0 && ShouldMove(e, price) ==>
              Calculator.Truncation(StopLevel(e.cfg, price), e.cfg.decimal, r.triggerPrice) &&
              Calculator.Truncation(MoveLevel(e.cfg, price), e.cfg.decimal, r.movePrice)
    ensures e.pos.holdCont > 0.0 && StopHit(r, price) ==>
              r.pos == Flat && r.events == e.events + [CloseEvent(e.cfg)]
    ensures e.pos.holdCont > 0.0 && !StopHit(r, price) ==>
              r.pos == e.pos && r.events == e.events
  {
    if e.pos.holdCont <= 0.0 then e
    else
      var e1 := e.(currPrice := price);
      var e2 := if ShouldMove(e, price) then Move(e1, price) else e1;
      if IsLong(e.cfg) && price <= e2.triggerPrice then Close(e2, OnCloseLong)
      else if !IsLong(e.cfg) && price >= e2.triggerPrice then Close(e2, OnCloseShort)
      else e2
  }

  /** The order price of a tick: a move places the order behind the new stop
      (`closeLong`/`closeShort` of the stop and the slippage), and an engine
      whose order price matches its stop keeps that property. */
  lemma TickPlacesOrder(e: Engine, price: real)
    requires Inv(e)
    ensures e.pos.holdCont > 0.0 && ShouldMove(e, price) ==>
              OnPriceChange(e, price).closePrice == OrderPrice(e.cfg, OnPriceChange(e, price).triggerPrice)
    ensures OrderPlaced(e) ==> OrderPlaced(OnPriceChange(e, price))
  {
  }

  /** `minusCont`: only the position changes. */
  function MinusCont(e: Engine, cont: real, price: real): (r: Engine)
    requires Inv(e)
    ensures Inv(r)
    ensures r.pos == Minus(e.pos, cont, price)
    ensures r.(pos := e.pos) == e
    ensures (cont == 0.0 || e.pos.holdCont < cont) <==> r == e
  {
    e.(pos := Minus(e.pos, cont, price))
  }

  /** `addCont`: a non-positive quantity is a reduction by its magnitude; a
      positive one re-averages the position and then handles `price` as a
      tick. The stop is not reset by an add. */
  function AddCont(e: Engine, cont: real, price: real): (r: Engine)
    requires Inv(e)
    ensures Inv(r) && r.cfg == e.cfg
    ensures cont <= 0.0 ==> r == MinusCont(e, -cont, price)
    ensures cont > 0.0 ==> r.currPrice == price
    ensures cont > 0.0 && StopHit(r, price) ==>
              r.pos == Flat && r.events == e.events + [CloseEvent(e.cfg)]
    ensures cont > 0.0 && !StopHit(r, price) ==>
              r.pos == Add(e.pos, cont, price) && r.events == e.events
    ensures cont > 0.0 && Initialized(e) && IsLong(e.cfg) ==> r.triggerPrice >= e.triggerPrice
    ensures cont > 0.0 && Initialized(e) && !IsLong(e.cfg) ==> r.triggerPrice <= e.triggerPrice
    ensures cont > 0.0 && ShouldMove(e, price) ==>
              Calculator.Truncation(StopLevel(e.cfg, price), e.cfg.decimal, r.triggerPrice) &&
              Calculator.Truncation(MoveLevel(e.cfg, price), e.cfg.decimal, r.movePrice) &&
              r.closePrice == OrderPrice(e.cfg, r.triggerPrice)
    ensures OrderPlaced(e) ==> OrderPlaced(r)
    ensures cont > 0.0 && !ShouldMove(e, price) ==>
              r.triggerPrice == e.triggerPrice && r.movePrice == e.movePrice && r.closePrice == e.closePrice
  {
    if cont <= 0.0 then MinusCont(e, -cont, price)
    else
      var added := e.(pos := Add(e.pos, cont, price));
      TickPlacesOrder(added, price);
      if Initialized(added) then
        RatchetStep(added, price);
        OnPriceChange(added, price)
      else
        OnPriceChange(added, price)
  }

  // ---------------------------------------------------------------------
  // The stop only moves in the position's favour
  // ---------------------------------------------------------------------

  /** One tick never moves an initialised stop against the position: up or
      unchanged for a long, down or unchanged for a short. */
  lemma RatchetStep(e: Engine, price: real)
    requires Inv(e) && Initialized(e)
    ensures IsLong(e.cfg) ==> OnPriceChange(e, price).triggerPrice >= e.triggerPrice
    ensures !IsLong(e.cfg) ==> OnPriceChange(e, price).triggerPrice <= e.triggerPrice
  {
    if e.pos.holdCont > 0.0 && ShouldMove(e, price) {
      Calculator.StepBound(e.triggerPrice, StopLevel(e.cfg, price), e.cfg.decimal);
    }
  }

  /** The ticks of a feed that keep the band at least one step above zero, so
      that a move always leaves the stop and the move line initialised. */
  predicate Priced(cfg: Config, price: real)
    requires WellFormed(cfg)
  {
    StopLevel(cfg, price) >= cfg.decimal && MoveLevel(cfg, price) >= cfg.decimal
  }

  /** A tick of such a feed keeps the engine initialised. */
  lemma StaysInitialized(e: Engine, price: real)
    requires Inv(e) && Initialized(e) && Priced(e.cfg, price)
    ensures Initialized(OnPriceChange(e, price))
  {
    var d := e.cfg.decimal;
    if e.pos.holdCont > 0.0 && ShouldMove(e, price) {
      Calculator.StepOfInt(1, d);
      Calculator.StepBound(d, StopLevel(e.cfg, price), d);
      Calculator.StepBound(d, MoveLevel(e.cfg, price), d);
    }
  }

  /** The engine after each tick of `prices` in turn. */
  function Run(e: Engine, prices: seq<real>): (r: Engine)
    requires Inv(e)
    ensures Inv(r) && r.cfg == e.cfg
    decreases |prices|
  {
    if prices == [] then e else Run(OnPriceChange(e, prices[0]), prices[1..])
  }

  /** Over any feed that keeps the band above zero, the stop of an initialised
      engine never moves against the position. */
  lemma {:induction false} Ratchet(e: Engine, prices: seq<real>)
    requires Inv(e) && Initialized(e)
    requires forall i :: 0 <= i < |prices| ==> Priced(e.cfg, prices[i])
    ensures Initialized(Run(e, prices))
    ensures IsLong(e.cfg) ==> Run(e, prices).triggerPrice >= e.triggerPrice
    ensures !IsLong(e.cfg) ==> Run(e, prices).triggerPrice <= e.triggerPrice
    decreases |prices|
  {
    if prices != [] {
      var next := OnPriceChange(e, prices[0]);
      RatchetStep(e, prices[0]);
      StaysInitialized(e, prices[0]);
      assert forall i :: 0 <= i < |prices[1..]| ==> Priced(next.cfg, prices[1..][i]) by {
        forall i | 0 <= i < |prices[1..]|
          ensures Priced(next.cfg, prices[1..][i])
        {
          assert prices[1..][i] == prices[i + 1];
        }
      }
      Ratchet(next, prices[1..]);
    }
  }

  /** A long engine's first tick with a positive stop distance never closes:
      the stop is set strictly below the price. */
  lemma FirstLongTickKeepsPosition(e: Engine, price: real)
    requires Inv(e) && !Initialized(e) && IsLong(e.cfg) && e.pos.holdCont > 0.0
    requires Calculator.Sane(price, e.cfg.fee, e.cfg.leverage) && e.cfg.radio > 0.0
    ensures OnPriceChange(e, price).pos == e.pos
    ensures OnPriceChange(e, price).triggerPrice < price
  {
    var lower := StopLevel(e.cfg, price);
    Calculator.LowerPriceBelowOpen(price, e.cfg.radio, e.cfg.fee, e.cfg.leverage);
    assert lower < price;
    var stop := Calculator.ParseDecimal(lower, e.cfg.decimal);
    assert stop <= lower || stop <= 0.0;
  }

  /** A short engine's first tick can close at once: with a one-unit price
      step, 20x leverage, no fee and a 100% stop distance, a tick at 10 puts
      the stop band at 10.5, which truncates to 10, and 10 >= 10 closes. */
  lemma FirstShortTickCanClose()
    ensures var e := Engine(Config(-1.0, 20.0, 0.0, 1.0, 0.0, 1.0), Position(10.0, 1.0), 0.0, 0.0, 0.0, 0.0, []);
            Inv(e) && OnPriceChange(e, 10.0).triggerPrice == 10.0 &&
            OnPriceChange(e, 10.0).events == [OnCloseShort]
  {
    var cfg := Config(-1.0, 20.0, 0.0, 1.0, 0.0, 1.0);
    assert StopLevel(cfg, 10.0) == 10.5;
    Calculator.StepOfInt(0, 1.0);
    Calculator.StepOfInt(10, 1.0);
    Calculator.ParseDecimalUnique(10.5, 1.0, 10.0);
  }

  // ---------------------------------------------------------------------
  // A worked long example
  // ---------------------------------------------------------------------

  /** 20x leverage, a 0.03% fee, a 3% stop distance, 0.05% slippage and a
      0.001 price step. */
  const Example := Config(1.0, 20.0, 0.0003, 0.03, 0.0005, 0.001)

  /** After one contract bought at 6.320: stop 6.306, move line 6.333. */
  const Opened := Engine(Example, Position(6.32, 1.0), 6.32, 6.333, 6.306, 6.306 * 0.9995, [])

  /** After a tick at 6.400: stop 6.386, move line 6.413. */
  const Trailed := Opened.(currPrice := 6.40, movePrice := 6.413, triggerPrice := 6.386, closePrice := 6.386 * 0.9995)

  lemma OpenExample()
    ensures AddCont(New(Example), 1.0, 6.32) == Opened
  {
    AddToFlat(Flat, 1.0, 6.32);
    FirstTickExample();
  }

  /** The first tick at 6.320 sets the stop at 6.306 and the move line at
      6.333. */
  lemma FirstTickExample()
    ensures OnPriceChange(New(Example).(pos := Position(6.32, 1.0)), 6.32) == Opened
  {
    var lower := Calculator.LowerPrice(6.32, 0.03, 0.0003, 20.0);
    var upper := Calculator.UpperPrice(6.32, 0.03, 0.0003, 20.0);
    assert lower == (1.0 - 0.03 / 20.0) * (6.32 * 0.9997) / 1.0003;
    assert upper == (0.03 / 20.0 + 1.0) * (6.32 * 1.0003) / 0.9997;
    Calculator.MilliPin(lower, 6.306);
    Calculator.MilliPin(upper, 6.333);
  }

  /** The tick at 6.400 clears the move line with a higher band, so the stop
      trails up to 6.386. */
  lemma TrailExample()
    ensures OnPriceChange(Opened, 6.40) == Trailed
  {
    var lower := Calculator.LowerPrice(6.40, 0.03, 0.0003, 20.0);
    var upper := Calculator.UpperPrice(6.40, 0.03, 0.0003, 20.0);
    assert lower == (1.0 - 0.03 / 20.0) * (6.40 * 0.9997) / 1.0003;
    assert upper == (0.03 / 20.0 + 1.0) * (6.40 * 1.0003) / 0.9997;
    Calculator.MilliStep(6.306);
    Calculator.MilliStep(6.333);
    Calculator.MilliPin(lower, 6.386);
    Calculator.MilliPin(upper, 6.413);
  }

  /** A fall back to 6.350 leaves the stop at 6.386, which the price is
      already below, so the position closes. */
  lemma FallExample()
    ensures OnPriceChange(Trailed, 6.35)
         == Trailed.(currPrice := 6.35, pos := Flat, events := [OnCloseLong])
  {
    Calculator.MilliStep(6.386);
    Calculator.MilliStep(6.413);
    var lower := Calculator.LowerPrice(6.35, 0.03, 0.0003, 20.0);
    assert lower == (1.0 - 0.03 / 20.0) * (6.35 * 0.9997) / 1.0003;
    assert lower < 6.386;
  }

  /** The engine after the close at 6.350: flat, stop still at 6.386. */
  const Closed := Trailed.(currPrice := 6.35, pos := Flat, events := [OnCloseLong])

  /** Buying one contract again at 6.300 inherits the 6.386 stop, which the
      price is below, so the new position closes at once. */
  lemma ReAddExample()
    ensures AddCont(Closed, 1.0, 6.30)
         == Closed.(currPrice := 6.30, events := [OnCloseLong, OnCloseLong])
  {
    AddToFlat(Flat, 1.0, 6.30);
    ReAddedTick();
  }

  lemma ReAddedTick()
    ensures OnPriceChange(Closed.(pos := Position(6.30, 1.0)), 6.30)
         == Closed.(currPrice := 6.30, events := [OnCloseLong, OnCloseLong])
  {
    Calculator.MilliStep(6.386);
    Calculator.MilliStep(6.413);
    var lower := Calculator.LowerPrice(6.30, 0.03, 0.0003, 20.0);
    assert lower == (1.0 - 0.03 / 20.0) * (6.30 * 0.9997) / 1.0003;
    assert lower < 6.386;
  }
}
