/** Adding up the fills of a new order. The same loop stands in the acknowledgement handlers of the
    web-socket stream and of both REST streams; here over exact numbers. */
module Fills {
  import opened Wrappers

  datatype Fill = Fill(price: real, qty: real)

  /** What an acknowledgement says about the trades of an order; None where the source has no number. */
  datatype Traded = Traded(remaining: real, quantity: real, average: Option<real>, lastQuantity: real, lastPrice: Option<real>)

  function Quantity(fills: seq<Fill>): real {
    if fills == [] then 0.0 else Quantity(fills[..|fills| - 1]) + fills[|fills| - 1].qty
  }

  function Money(f: Fill): real {
    f.price * f.qty
  }

  function Notional(fills: seq<Fill>): real {
    if fills == [] then 0.0 else Notional(fills[..|fills| - 1]) + Money(fills[|fills| - 1])
  }

  /** The ratio, unless there is nothing to divide by. */
  function Ratio(notional: real, quantity: real): (r: Option<real>)
    ensures r.Some? <==> quantity > 0.0
    ensures r.Some? ==> r.value * quantity == notional
  {
    if quantity > 0.0 then Some(notional / quantity) else None
  }

  method Aggregate(origQty: real, executedQty: real, cummulativeQuoteQty: real, fills: seq<Fill>) returns (traded: Traded)
    ensures traded.remaining + executedQty == origQty && traded.quantity == executedQty
    ensures traded.average.Some? <==> executedQty != 0.0
    ensures traded.average.Some? ==> traded.average.value * executedQty == cummulativeQuoteQty
    ensures traded.lastQuantity == Quantity(fills) && traded.lastPrice == Ratio(Notional(fills), Quantity(fills))
  {
    var average := if executedQty == 0.0 then None else Some(cummulativeQuoteQty / executedQty);
    var lastTradedQuantity, tmp := 0.0, 0.0;
    for i := 0 to |fills|
      invariant lastTradedQuantity == Quantity(fills[..i]) && tmp == Notional(fills[..i])
    {
      assert fills[..i + 1][..i] == fills[..i];
      lastTradedQuantity := lastTradedQuantity + fills[i].qty;
      tmp := tmp + fills[i].price * fills[i].qty;
    }
    assert fills[..|fills|] == fills;
    var lastTradedPrice := None;
    if lastTradedQuantity > 0.0 {
      lastTradedPrice := Some(tmp / lastTradedQuantity);
    }
    traded := Traded(origQty - executedQty, executedQty, average, lastTradedQuantity, lastTradedPrice);
  }

  function LastPrice(fills: seq<Fill>): Option<real> {
    Ratio(Notional(fills), Quantity(fills))
  }

  function Times(x: real, q: real): real {
    x * q
  }

  lemma Scale(x: real, y: real, q: real)
    requires x <= y && q >= 0.0
    ensures Times(x, q) <= Times(y, q)
    ensures x < y && q > 0.0 ==> Times(x, q) < Times(y, q)
  {
  }

  lemma Distribute(x: real, p: real, q: real)
    ensures Times(x, p + q) == Times(x, p) + Times(x, q)
  {
  }

  lemma BoundsOne(f: Fill, low: real, high: real)
    requires f.qty >= 0.0 && low <= f.price <= high
    ensures Times(low, f.qty) <= Money(f) <= Times(high, f.qty)
  {
    Scale(low, f.price, f.qty);
    Scale(f.price, high, f.qty);
  }

  lemma {:induction false} Bounds(fills: seq<Fill>, low: real, high: real)
    requires forall f :: f in fills ==> f.qty >= 0.0 && low <= f.price <= high
    ensures Quantity(fills) >= 0.0
    ensures Times(low, Quantity(fills)) <= Notional(fills) <= Times(high, Quantity(fills))
  {
    if fills != [] {
      hide Times, Money;
      var front, f := fills[..|fills| - 1], fills[|fills| - 1];
      assert f in fills;
      assert forall g :: g in front ==> g in fills;
      Bounds(front, low, high);
      BoundsOne(f, low, high);
      Distribute(low, Quantity(front), f.qty);
      Distribute(high, Quantity(front), f.qty);
    }
  }

  lemma Unscale(x: real, y: real, q: real)
    requires Times(x, q) <= Times(y, q) && q > 0.0
    ensures x <= y
  {
    hide Times;
    if y < x {
      Scale(y, x, q);
    }
  }

  /** The price lies between the least and the greatest price of the fills. */
  lemma PriceBetween(fills: seq<Fill>, low: real, high: real)
    requires forall f :: f in fills ==> f.qty >= 0.0 && low <= f.price <= high
    ensures LastPrice(fills).Some? ==> low <= LastPrice(fills).value <= high
  {
    Bounds(fills, low, high);
    var q := Quantity(fills);
    hide Quantity, Notional;
    if q > 0.0 {
      assert Times(LastPrice(fills).value, q) == Notional(fills);
      hide Times, LastPrice;
      Unscale(low, LastPrice(fills).value, q);
      Unscale(LastPrice(fills).value, high, q);
    }
  }

  lemma {:induction false} QuantityPositive(fills: seq<Fill>)
    requires forall f :: f in fills ==> f.qty > 0.0
    ensures Quantity(fills) >= 0.0 && (Quantity(fills) > 0.0 <==> fills != [])
  {
    if fills != [] {
      var front := fills[..|fills| - 1];
      assert fills[|fills| - 1] in fills;
      assert forall g :: g in front ==> g in fills;
      QuantityPositive(front);
    }
  }

  // --- the order of the fills

  lemma {:induction false} Remove(fills: seq<Fill>, i: nat)
    requires i < |fills|
    ensures var rest := fills[..i] + fills[i + 1..];
            Quantity(fills) == Quantity(rest) + fills[i].qty && Notional(fills) == Notional(rest) + Money(fills[i])
  {
    hide Money;
    var rest := fills[..i] + fills[i + 1..];
    var front, last := fills[..|fills| - 1], fills[|fills| - 1];
    if i < |fills| - 1 {
      Remove(front, i);
      assert rest[..|rest| - 1] == front[..i] + front[i + 1..] && rest[|rest| - 1] == last;
    } else {
      assert rest == front;
    }
  }

  lemma RestOf(fills: seq<Fill>, i: nat)
    requires i < |fills|
    ensures multiset(fills[..i] + fills[i + 1..]) == multiset(fills) - multiset{fills[i]}
  {
    assert fills == fills[..i] + [fills[i]] + fills[i + 1..];
  }

  /** The sums do not depend on the order in which the fills are listed. */
  lemma {:induction false} OrderOfFills(a: seq<Fill>, b: seq<Fill>)
    requires multiset(a) == multiset(b)
    ensures Quantity(a) == Quantity(b) && Notional(a) == Notional(b)
    decreases |a|
  {
    hide Money;
    if a == [] {
      assert |multiset(b)| == 0;
    } else {
      var front, last := a[..|a| - 1], a[|a| - 1];
      assert front + a[|a|..] == front;
      RestOf(a, |a| - 1);
      assert last in multiset(b);
      var i :| 0 <= i < |b| && b[i] == last;
      RestOf(b, i);
      Remove(b, i);
      OrderOfFills(front, b[..i] + b[i + 1..]);
    }
  }

  /** Fills listed together weigh in with their quantities. */
  lemma {:induction false} Combine(a: seq<Fill>, b: seq<Fill>)
    ensures Quantity(a + b) == Quantity(a) + Quantity(b) && Notional(a + b) == Notional(a) + Notional(b)
  {
    hide Money;
    if b == [] {
      assert a + b == a;
    } else {
      assert (a + b)[..|a + b| - 1] == a + b[..|b| - 1];
      Combine(a, b[..|b| - 1]);
    }
  }

  // --- the two prices

  lemma SameQuotient(x: real, y: real, q: real)
    requires q != 0.0 && x * q == y * q
    ensures x == y
  {
    assert (x - y) * q == 0.0;
  }

  lemma SamePrice(average: real, quoteQty: real, fills: seq<Fill>)
    requires Quantity(fills) > 0.0 && average * Quantity(fills) == quoteQty
    ensures LastPrice(fills) == Some(average) <==> quoteQty == Notional(fills)
  {
    var price := LastPrice(fills).value;
    assert price * Quantity(fills) == Notional(fills);
    if quoteQty == Notional(fills) {
      SameQuotient(average, price, Quantity(fills));
    }
  }

  ghost predicate AllPositive(fills: seq<Fill>) {
    forall f :: f in fills ==> f.qty > 0.0
  }

  /** What an acknowledgement says, whichever stream it comes from: price times quantity is the money
      spent, and the order of the fills does not matter. With positive quantities there is a last price
      exactly if there is a fill, it lies within the prices of the fills, and if the executed quantity is
      the sum of the fills then the average price is the last price exactly if the quote quantity is the
      sum of the fills, too. */
  method Acknowledge(origQty: real, executedQty: real, cummulativeQuoteQty: real, fills: seq<Fill>) returns (traded: Traded)
    ensures traded.remaining + traded.quantity == origQty && traded.quantity == executedQty
    ensures traded.lastPrice.Some? ==> traded.lastPrice.value * traded.lastQuantity == Notional(fills)
    ensures forall others :: multiset(others) == multiset(fills) ==>
              traded.lastQuantity == Quantity(others) && traded.lastPrice == LastPrice(others)
    ensures AllPositive(fills) ==> (traded.lastPrice.Some? <==> fills != [])
    ensures forall low, high :: AllPositive(fills) && traded.lastPrice.Some? && Within(fills, low, high) ==>
              low <= traded.lastPrice.value <= high
    ensures AllPositive(fills) && fills != [] && executedQty == Quantity(fills) ==>
              (traded.average == traded.lastPrice <==> cummulativeQuoteQty == Notional(fills))
  {
    traded := Aggregate(origQty, executedQty, cummulativeQuoteQty, fills);
    forall others | multiset(others) == multiset(fills)
      ensures traded.lastQuantity == Quantity(others) && traded.lastPrice == LastPrice(others)
    {
      OrderOfFills(others, fills);
    }
    if AllPositive(fills) {
      QuantityPositive(fills);
      forall low, high | traded.lastPrice.Some? && Within(fills, low, high)
        ensures low <= traded.lastPrice.value <= high
      {
        PriceBetween(fills, low, high);
      }
      if fills != [] && executedQty == Quantity(fills) {
        SamePrice(traded.average.value, cummulativeQuoteQty, fills);
      }
    }
  }

  ghost predicate Within(fills: seq<Fill>, low: real, high: real) {
    forall f :: f in fills ==> low <= f.price <= high
  }
}
