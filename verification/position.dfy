/**
 Position accounting shared by both trigger engines: the average hold price
 and the number of contracts held, as `addCont` (with a positive quantity)
 and `minusCont` update them, and the close events the engines emit.
 */
module Holding {

  import RealArith

  /** The events an engine emits when its position is closed. */
  datatype Event = OnCloseLong | OnCloseShort

  /** `holdPrice` is the average cost per contract, `holdCont` the number of
      contracts held. */
  datatype Position = Position(holdPrice: real, holdCont: real)

  /** The flat position a fresh engine starts from. */
  const Flat := Position(0.0, 0.0)

  /** What every reachable position satisfies: a non-negative quantity, and a
      zero average price whenever the quantity is zero. */
  predicate Valid(p: Position) {
    p.holdCont >= 0.0 && (p.holdCont == 0.0 ==> p.holdPrice == 0.0)
  }

  /** The total cost of the position. */
  function Cost(p: Position): real {
    p.holdPrice * p.holdCont
  }

  /** The positive-quantity branch of `addCont`: buy `cont` more contracts at
      `price` and re-average the hold price. */
  function Add(p: Position, cont: real, price: real): (q: Position)
    requires p.holdCont >= 0.0 && cont > 0.0
    ensures q.holdCont == p.holdCont + cont
    ensures Valid(q) && q.holdCont > 0.0
  {
    var total := Cost(p) + price * cont;
    Position(total / (p.holdCont + cont), p.holdCont + cont)
  }

  /** `minusCont`: drop `cont` contracts valued at `price`. A zero quantity,
      or more contracts than are held, leaves the position as it is; the
      average of what remains is the remaining cost over the remaining
      quantity, and zero once nothing remains. */
  function Minus(p: Position, cont: real, price: real): (q: Position)
    ensures (cont == 0.0 || p.holdCont < cont) <==> q == p
    ensures q != p ==> q.holdCont == p.holdCont - cont
    ensures Valid(p) ==> Valid(q)
    ensures q != p && q.holdCont == 0.0 ==> q == Flat
  {
    if cont == 0.0 || p.holdCont < cont then p
    else
      var rest := p.holdCont - cont;
      var total := Cost(p) - price * cont;
      Position(if rest > 0.0 then total / rest else 0.0, rest)
  }

  /** Adding conserves cost: the new position costs what the old one did
      plus what was paid for the added contracts. */
  lemma AddConservesCost(p: Position, cont: real, price: real)
    requires p.holdCont >= 0.0 && cont > 0.0
    ensures Cost(Add(p, cont, price)) == Cost(p) + price * cont
  {
    RealArith.DivCancel(Cost(p) + price * cont, p.holdCont + cont);
  }

  /** Adding to a flat position takes the price paid as the average. */
  lemma AddToFlat(p: Position, cont: real, price: real)
    requires Valid(p) && p.holdCont == 0.0 && cont > 0.0
    ensures Add(p, cont, price) == Position(price, cont)
  {
    RealArith.MulDivCancel(price, cont);
  }

  /** Adding to an open position moves the average toward the price paid and
      never past it. */
  lemma AddAverageBetween(p: Position, cont: real, price: real)
    requires p.holdCont > 0.0 && cont > 0.0
    ensures p.holdPrice <= price ==> p.holdPrice <= Add(p, cont, price).holdPrice <= price
    ensures price <= p.holdPrice ==> price <= Add(p, cont, price).holdPrice <= p.holdPrice
  {
    WeightedBetween(p.holdPrice, p.holdCont, price, cont, Add(p, cont, price).holdPrice);
  }

  /** The weighted average of `a` and `b` with positive weights lies between them. */
  lemma WeightedBetween(a: real, wa: real, b: real, wb: real, m: real)
    requires wa > 0.0 && wb > 0.0 && m == (a * wa + b * wb) / (wa + wb)
    ensures a <= b ==> a <= m <= b
    ensures b <= a ==> b <= m <= a
  {
    var w := wa + wb;
    RealArith.DivCancel(a * wa + b * wb, w);
    assert m * w == a * wa + b * wb;
    if a <= b {
      RealArith.Scale(a, b, wb);
      assert a * w <= m * w;
      RealArith.Scale(a, b, wa);
      assert m * w <= b * w;
      ScaleBack(a, m, w);
      ScaleBack(m, b, w);
    }
    if b <= a {
      RealArith.Scale(b, a, wa);
      assert b * w <= m * w;
      RealArith.Scale(b, a, wb);
      assert m * w <= a * w;
      ScaleBack(b, m, w);
      ScaleBack(m, a, w);
    }
  }

  lemma ScaleBack(x: real, y: real, w: real)
    requires w > 0.0 && x * w <= y * w
    ensures x <= y
  {
    if y < x {
      RealArith.Scale(y, x, w);
    }
  }

  /** Reducing conserves cost while something remains: the remaining position
      costs the old cost less the value taken out. */
  lemma MinusConservesCost(p: Position, cont: real, price: real)
    requires cont != 0.0 && cont < p.holdCont
    ensures Cost(Minus(p, cont, price)) == Cost(p) - price * cont
  {
    RealArith.DivCancel(Cost(p) - price * cont, p.holdCont - cont);
  }

  /** Reducing at the average price leaves the average unchanged. */
  lemma MinusAtAverage(p: Position, cont: real)
    requires cont != 0.0 && cont < p.holdCont
    ensures Minus(p, cont, p.holdPrice).holdPrice == p.holdPrice
  {
    var rest := p.holdCont - cont;
    assert Cost(p) - p.holdPrice * cont == p.holdPrice * rest;
    RealArith.MulDivCancel(p.holdPrice, rest);
  }

  /** A negative quantity is an add of its magnitude: the holding grows and
      the average is re-weighted exactly as `Add` does. */
  lemma MinusNegativeIsAdd(p: Position, cont: real, price: real)
    requires p.holdCont >= 0.0 && cont < 0.0
    ensures Minus(p, cont, price) == Add(p, -cont, price)
  {
    assert Cost(p) - price * cont == Cost(p) + price * -cont;
  }

  /** Closing everything, as both engines do on a trigger, leaves the flat
      position whatever the price. */
  lemma MinusAllIsFlat(p: Position, price: real)
    requires p.holdCont > 0.0
    ensures Minus(p, p.holdCont, price) == Flat
  {
  }

  /** Round trip: buying `cont` contracts and then selling them again at the
      same price restores the position. */
  lemma AddThenMinus(p: Position, cont: real, price: real)
    requires Valid(p) && cont > 0.0
    ensures Minus(Add(p, cont, price), cont, price) == p
  {
    var q := Add(p, cont, price);
    AddConservesCost(p, cont, price);
    if p.holdCont > 0.0 {
      MinusConservesCost(q, cont, price);
      var r := Minus(q, cont, price);
      assert r.holdCont == p.holdCont;
      assert r.holdPrice * p.holdCont == p.holdPrice * p.holdCont;
      CancelFactor(r.holdPrice, p.holdPrice, p.holdCont);
    }
  }

  lemma CancelFactor(x: real, y: real, w: real)
    requires w > 0.0 && x * w == y * w
    ensures x == y
  {
    if x < y {
      RealArith.Scale(x, y, w);
    } else if y < x {
      RealArith.Scale(y, x, w);
    }
  }

  /** A zero average price does not mean a flat position: reducing two
      contracts averaged at 10 by one contract valued at 20 leaves one
      contract with a zero average. */
  lemma ZeroPriceNotFlat()
    ensures Minus(Position(10.0, 2.0), 1.0, 20.0) == Position(0.0, 1.0)
    ensures Valid(Position(0.0, 1.0)) && Position(0.0, 1.0) != Flat
  {
  }
}
