/** The rule engine of the risk gate (services/api/internal/risk). */
module Risk {
  import opened Sums

  datatype Side = Buy | Sell | Other(name: string)

  datatype Order = Order(symbol: string, side: Side, qty: real, notional: real, cashImpact: real, fillPrice: real)

  datatype PortfolioState =
    PortfolioState(cash: real, equity: real, positions: map<string, real>, marks: map<string, real>)

  datatype Engine =
    Engine(maxOrderNotional: real, maxSingleNameWeight: real, minCashRatio: real, maxTopConcentration: real)

  datatype Decision = Decision(autoExecute: bool, breaches: seq<string>)

  function QtyOf(positions: map<string, real>, symbol: string): real {
    if symbol in positions then positions[symbol] else 0.0
  }

  /** The price a position is valued at: the traded symbol goes at the fill price, all others at their mark. */
  function MarkPrice(marks: map<string, real>, symbol: string, traded: string, fillPrice: real): real {
    if symbol == traded && fillPrice > 0.0 then fillPrice
    else if symbol in marks then marks[symbol]
    else fillPrice
  }

  function PostPositions(state: PortfolioState, p: Order): map<string, real> {
    match p.side
    case Buy => state.positions[p.symbol := QtyOf(state.positions, p.symbol) + p.qty]
    case Sell => state.positions[p.symbol := QtyOf(state.positions, p.symbol) - p.qty]
    case Other(_) => state.positions
  }

  function Worth(qty: real, price: real): real {
    qty * price
  }

  function Ratio(a: real, b: real): real
    requires b > 0.0
  {
    a / b
  }

  /** Market value by symbol of every non-flat position. */
  function Values(positions: map<string, real>, marks: map<string, real>, traded: string, fillPrice: real): map<string,
        real> {
    map s | s in positions && positions[s] != 0.0 :: Worth(positions[s], MarkPrice(marks, s, traded, fillPrice))
  }

  ghost function EquityOf(cash: real, positions: map<string, real>, marks: map<string, real>, traded: string,
        fillPrice: real): real {
    cash + Sum(Values(positions, marks, traded, fillPrice))
  }

  ghost function PostEquity(state: PortfolioState, p: Order): real {
    EquityOf(state.cash + p.cashImpact, PostPositions(state, p), state.marks, p.symbol, p.fillPrice)
  }

  function WeightsOf(positions: map<string, real>, equity: real, marks: map<string, real>, traded: string,
        fillPrice: real): map<string, real>
    requires equity > 0.0
  {
    var values := Values(positions, marks, traded, fillPrice);
    map s | s in values :: Ratio(values[s], equity)
  }

  predicate BreaksNotional(e: Engine, p: Order) {
    p.notional > e.maxOrderNotional
  }

  predicate BreaksCashRatio(e: Engine, state: PortfolioState, p: Order) {
    p.cashImpact < 0.0 && state.equity > 0.0 && Ratio(state.cash + p.cashImpact, state.equity) < e.minCashRatio
  }

  ghost predicate BreaksWeight(e: Engine, state: PortfolioState, p: Order) {
    var equity := PostEquity(state, p);
    && equity > 0.0
    && p.side.Buy?
    && var w := WeightsOf(PostPositions(state, p), equity, state.marks, p.symbol, p.fillPrice);
       QtyOf(w, p.symbol) > e.maxSingleNameWeight
  }

  /** Some position outgrows the concentration limit; the rule is off while the limit is not positive. */
  ghost predicate BreaksConcentration(e: Engine, state: PortfolioState, p: Order) {
    var equity := PostEquity(state, p);
    && equity > 0.0
    && e.maxTopConcentration > 0.0
    && var w := WeightsOf(PostPositions(state, p), equity, state.marks, p.symbol, p.fillPrice);
       exists s :: s in w && w[s] > e.maxTopConcentration
  }

  ghost function Evaluate(e: Engine, state: PortfolioState, p: Order): Decision {
    var breaches :=
      (if BreaksNotional(e, p) then ["max_order_notional"] else []) +
      (if BreaksCashRatio(e, state, p) then ["min_cash_ratio"] else []) +
      (if BreaksWeight(e, state, p) then ["max_single_name_weight"] else []) +
      (if BreaksConcentration(e, state, p) then ["max_concentration"] else []);
    Decision(breaches == [], breaches)
  }

  /** An order executes by itself exactly when it breaks none of the four rules. */
  lemma AutoExecuteIff(e: Engine, state: PortfolioState, p: Order)
    ensures Evaluate(e, state, p).autoExecute <==>
            && !BreaksNotional(e, p)
            && !BreaksCashRatio(e, state, p)
            && !BreaksWeight(e, state, p)
            && !BreaksConcentration(e, state, p)
  {
  }

  /** A limit given as a share of something, as an amount. */
  function Share(limit: real, whole: real): real {
    limit * whole
  }

  lemma RatioBelow(a: real, b: real, limit: real)
    requires b > 0.0
    ensures Ratio(a, b) < limit <==> a < Share(limit, b)
    ensures Ratio(a, b) > limit <==> a > Share(limit, b)
  {
    assert a / b * b == a;
    if Ratio(a, b) < limit {
      assert (limit - a / b) * b > 0.0;
    } else {
      assert (a / b - limit) * b >= 0.0;
    }
    if Ratio(a, b) > limit {
      assert (a / b - limit) * b > 0.0;
    } else {
      assert (limit - a / b) * b >= 0.0;
    }
  }

  /** What a symbol is worth after the trade: the traded one at its fill price, every other at its mark, or at the fill
      price too where it has none. */
  function WorthAfter(state: PortfolioState, p: Order, symbol: string): real {
    var atFill := symbol !in state.marks || (symbol == p.symbol && p.fillPrice > 0.0);
    Worth(QtyOf(PostPositions(state, p), symbol), if atFill then p.fillPrice else state.marks[symbol])
  }

  /** The position is open after the trade and worth more than the concentration limit allows. */
  ghost predicate Outsized(e: Engine, state: PortfolioState, p: Order, symbol: string) {
    && QtyOf(PostPositions(state, p), symbol) != 0.0
    && WorthAfter(state, p, symbol) > Share(e.maxTopConcentration, PostEquity(state, p))
  }

  lemma WeightAfterTrade(state: PortfolioState, p: Order, equity: real, symbol: string, limit: real)
    requires equity > 0.0
    ensures var w := WeightsOf(PostPositions(state, p), equity, state.marks, p.symbol, p.fillPrice);
            && (symbol in w <==> QtyOf(PostPositions(state, p), symbol) != 0.0)
            && (symbol in w ==> w[symbol] == Ratio(WorthAfter(state, p, symbol), equity))
            && QtyOf(w, symbol) == Ratio(WorthAfter(state, p, symbol), equity)
            && (QtyOf(w, symbol) > limit <==> WorthAfter(state, p, symbol) > Share(limit, equity))
  {
    assert Worth(0.0, MarkPrice(state.marks, symbol, p.symbol, p.fillPrice)) == 0.0;
    assert Ratio(0.0, equity) == 0.0;
    RatioBelow(WorthAfter(state, p, symbol), equity, limit);
    hide Worth, Ratio, PostPositions, Share;
  }

  lemma WeightBroken(e: Engine, state: PortfolioState, p: Order)
    requires PostEquity(state, p) > 0.0
    ensures BreaksWeight(e, state, p) <==>
              p.side.Buy? && WorthAfter(state, p, p.symbol) > Share(e.maxSingleNameWeight, PostEquity(state, p))
    ensures BreaksConcentration(e, state, p) <==> e.maxTopConcentration > 0.0 && exists s :: Outsized(e, state, p, s)
  {
    var equity := PostEquity(state, p);
    var w := WeightsOf(PostPositions(state, p), equity, state.marks, p.symbol, p.fillPrice);
    WeightAfterTrade(state, p, equity, p.symbol, e.maxSingleNameWeight);
    forall s: string ensures (s in w && w[s] > e.maxTopConcentration) <==> Outsized(e, state, p, s) {
      WeightAfterTrade(state, p, equity, s, e.maxTopConcentration);
    }
    hide Worth, Ratio, PostEquity, PostPositions, MarkPrice, Share, WeightsOf, Outsized;
  }

  /** Every breach is reported under the name of its own rule, once, and nothing else is. */
  lemma BreachesAreNamed(e: Engine, state: PortfolioState, p: Order)
    ensures var d := Evaluate(e, state, p);
            var equity := PostEquity(state, p);
            && (d.autoExecute <==> d.breaches == [])
            && ("max_order_notional" in d.breaches <==> p.notional > e.maxOrderNotional)
            && ("min_cash_ratio" in d.breaches <==>
                && p.cashImpact < 0.0 && state.equity > 0.0
                && state.cash + p.cashImpact < Share(e.minCashRatio, state.equity))
            && ("max_single_name_weight" in d.breaches <==>
                equity > 0.0 && p.side.Buy? && WorthAfter(state, p, p.symbol) > Share(e.maxSingleNameWeight, equity))
            && ("max_concentration" in d.breaches <==>
                equity > 0.0 && e.maxTopConcentration > 0.0 && exists s :: Outsized(e, state, p, s))
            && (forall i :: 0 <= i < |d.breaches| ==>
                  d.breaches[i] in
                    {"max_order_notional", "min_cash_ratio", "max_single_name_weight", "max_concentration"})
            && (forall i, j :: 0 <= i < j < |d.breaches| ==> d.breaches[i] != d.breaches[j])
  {
    if state.equity > 0.0 {
      RatioBelow(state.cash + p.cashImpact, state.equity, e.minCashRatio);
    }
    if PostEquity(state, p) > 0.0 {
      WeightBroken(e, state, p);
    }
    hide PostEquity, WorthAfter, Outsized, Ratio, WeightsOf, PostPositions, Share;
    NamesOnce(BreaksNotional(e, p), BreaksCashRatio(e, state, p), BreaksWeight(e, state, p),
              BreaksConcentration(e, state, p));
    hide BreaksWeight, BreaksConcentration;
  }

  /** Which names are listed. */
  lemma NamesOnce(a: bool, b: bool, c: bool, d: bool)
    ensures var names := (if a then ["max_order_notional"] else []) + (if b then ["min_cash_ratio"] else []) +
                         (if c then ["max_single_name_weight"] else []) + (if d then ["max_concentration"] else []);
            && ("max_order_notional" in names <==> a) && ("min_cash_ratio" in names <==> b)
            && ("max_single_name_weight" in names <==> c) && ("max_concentration" in names <==> d)
            && (forall i :: 0 <= i < |names| ==>
                  names[i] in {"max_order_notional", "min_cash_ratio", "max_single_name_weight", "max_concentration"})
            && (forall i, j :: 0 <= i < j < |names| ==> names[i] != names[j])
  {
    assert "max_order_notional"[4] == 'o' && "max_single_name_weight"[4] == 's' && "max_concentration"[4] == 'c';
    assert "min_cash_ratio"[1] == 'i' && "max_order_notional"[1] == 'a';
  }

  /* ------------------------------------------------------------------ the imperative engine */

  method SimulatePostTrade(state: PortfolioState, p: Order) returns (positions: map<string, real>, cash: real)
    ensures positions == PostPositions(state, p)
    ensures cash == state.cash + p.cashImpact
  {
    positions := map[];
    var left := state.positions.Keys;
    while left != {}
      invariant left <= state.positions.Keys
      invariant positions == map s | s in state.positions && s !in left :: state.positions[s]
      decreases |left|
    {
      var s :| s in left;
      positions := positions[s := state.positions[s]];
      left := left - {s};
    }
    assert positions == state.positions;
    match p.side {
      case Buy => positions := positions[p.symbol := QtyOf(positions, p.symbol) + p.qty];
      case Sell => positions := positions[p.symbol := QtyOf(positions, p.symbol) - p.qty];
      case Other(_) =>
    }
    cash := state.cash + p.cashImpact;
  }

  lemma ValuesEntries(positions: map<string, real>, marks: map<string, real>, traded: string, fillPrice: real)
    ensures var all := Values(positions, marks, traded, fillPrice);
            && all.Keys <= positions.Keys
            && forall s :: s in positions ==>
                 && (s in all <==> positions[s] != 0.0)
                 && (s in all ==> all[s] == Worth(positions[s], MarkPrice(marks, s, traded, fillPrice)))
  {
    hide Worth, MarkPrice;
  }

  lemma EquityIsSum(cash: real, positions: map<string, real>, marks: map<string, real>, traded: string, fillPrice: real)
    ensures var all := Values(positions, marks, traded, fillPrice);
            && EquityOf(cash, positions, marks, traded, fillPrice) == cash + Sum(all)
            && Sum(all - positions.Keys) == 0.0 && all - {} == all
  {
    ValuesEntries(positions, marks, traded, fillPrice);
    var all := Values(positions, marks, traded, fillPrice);
    hide Values;
    assert all - positions.Keys == map[];
  }

  /** Visiting one more position adds what it is worth, unless it is flat. */
  lemma VisitPosition(positions: map<string, real>, marks: map<string, real>, traded: string, fillPrice: real,
        left: set<string>, s: string)
    requires s in left && s in positions
    ensures var all := Values(positions, marks, traded, fillPrice);
            var worth := Worth(positions[s], MarkPrice(marks, s, traded, fillPrice));
            Sum(all - (left - {s})) == Sum(all - left) + (if positions[s] != 0.0 then worth else 0.0)
  {
    var all := Values(positions, marks, traded, fillPrice);
    ValuesEntries(positions, marks, traded, fillPrice);
    hide Values, Sum, Worth, MarkPrice;
    VisitKey(all, left, s);
  }

  method PostTradeEquity(cash: real, positions: map<string, real>, marks: map<string, real>, traded: string,
        fillPrice: real)
    returns (equity: real)
    ensures equity == EquityOf(cash, positions, marks, traded, fillPrice)
  {
    hide *;
    equity := cash;
    EquityIsSum(cash, positions, marks, traded, fillPrice);
    ghost var all := Values(positions, marks, traded, fillPrice);
    var left := positions.Keys;
    while left != {}
      invariant left <= positions.Keys
      invariant equity == cash + Sum(all - left)
      decreases |left|
    {
      var s :| s in left;
      VisitPosition(positions, marks, traded, fillPrice, left, s);
      if positions[s] != 0.0 {
        equity := equity + Worth(positions[s], MarkPrice(marks, s, traded, fillPrice));
      }
      left := left - {s};
    }
  }

  method PositionWeights(positions: map<string, real>, equity: real, marks: map<string, real>, traded: string,
        fillPrice: real)
    returns (weights: map<string, real>)
    requires equity > 0.0
    ensures weights == WeightsOf(positions, equity, marks, traded, fillPrice)
  {
    weights := map[];
    ghost var all := WeightsOf(positions, equity, marks, traded, fillPrice);
    ValuesEntries(positions, marks, traded, fillPrice);
    ghost var values := Values(positions, marks, traded, fillPrice);
    assert all.Keys == values.Keys && forall s :: s in all ==> all[s] == Ratio(values[s], equity);
    hide Worth, Ratio, Values, WeightsOf, MarkPrice;
    var left := positions.Keys;
    assert all - left == map[];
    while left != {}
      invariant left <= positions.Keys
      invariant weights == all - left
      decreases |left|
    {
      var s :| s in left;
      VisitKey(all, left, s);
      if positions[s] != 0.0 {
        weights := weights[s := Ratio(Worth(positions[s], MarkPrice(marks, s, traded, fillPrice)), equity)];
      }
      left := left - {s};
    }
    assert all - {} == all;
  }

  /** The largest weight, or zero when no weight is positive. */
  method TopWeight(weights: map<string, real>) returns (max: real)
    ensures max >= 0.0
    ensures forall s :: s in weights ==> weights[s] <= max
    ensures max == 0.0 || exists s :: s in weights && weights[s] == max
  {
    max := 0.0;
    var left := weights.Keys;
    while left != {}
      invariant left <= weights.Keys
      invariant max >= 0.0
      invariant forall s :: s in weights && s !in left ==> weights[s] <= max
      invariant max == 0.0 || exists s :: s in weights && weights[s] == max
      decreases |left|
    {
      var s :| s in left;
      if weights[s] > max {
        max := weights[s];
      }
      left := left - {s};
    }
  }

  method EvaluateOrder(e: Engine, state: PortfolioState, p: Order) returns (d: Decision)
    ensures d == Evaluate(e, state, p)
  {
    hide Worth, Ratio, EquityOf, WeightsOf, PostPositions, QtyOf;
    var breaches: seq<string> := [];
    if p.notional > e.maxOrderNotional {
      breaches := breaches + ["max_order_notional"];
    }
    if p.cashImpact < 0.0 && state.equity > 0.0 {
      if Ratio(state.cash + p.cashImpact, state.equity) < e.minCashRatio {
        breaches := breaches + ["min_cash_ratio"];
      }
    }
    assert breaches == (if BreaksNotional(e, p) then ["max_order_notional"] else []) +
                       (if BreaksCashRatio(e, state, p) then ["min_cash_ratio"] else []);
    ghost var first := breaches;
    hide BreaksNotional, BreaksCashRatio;
    var positions, cash := SimulatePostTrade(state, p);
    var equity := PostTradeEquity(cash, positions, state.marks, p.symbol, p.fillPrice);
    if equity > 0.0 {
      var weights := PositionWeights(positions, equity, state.marks, p.symbol, p.fillPrice);
      if p.side.Buy? {
        if QtyOf(weights, p.symbol) > e.maxSingleNameWeight {
          breaches := breaches + ["max_single_name_weight"];
        }
      }
      assert breaches == first + (if BreaksWeight(e, state, p) then ["max_single_name_weight"] else []);
      if e.maxTopConcentration > 0.0 {
        var top := TopWeight(weights);
        if top > e.maxTopConcentration {
          breaches := breaches + ["max_concentration"];
        }
      }
    }
    d := Decision(breaches == [], breaches);
  }

  /* ------------------------------------------------------------------ value is neutral in quantity */

  lemma WorthDifference(a: real, b: real, price: real)
    ensures Worth(a, price) - Worth(b, price) == Worth(a - b, price)
  {
  }

  lemma WorthMonotone(a: real, b: real, price: real)
    requires a <= b && price >= 0.0
    ensures Worth(a, price) <= Worth(b, price)
  {
  }

  lemma RatioMonotone(a: real, b: real, d: real)
    requires a <= b && d > 0.0
    ensures Ratio(a, d) <= Ratio(b, d)
  {
  }

  /** Overwriting one position shifts the market value by the change in quantity, valued at that symbol's price.
      A flat position is left out of the value map and adds nothing, so it makes no difference here. */
  lemma ValuesUpdate(positions: map<string, real>, marks: map<string, real>, s: string, qty: real, traded: string,
        fillPrice: real)
    ensures Sum(Values(positions[s := qty], marks, traded, fillPrice))
         == Sum(Values(positions, marks, traded, fillPrice))
            + Worth(qty - QtyOf(positions, s), MarkPrice(marks, s, traded, fillPrice))
  {
    var price := MarkPrice(marks, s, traded, fillPrice);
    var before := Values(positions, marks, traded, fillPrice);
    var after := Values(positions[s := qty], marks, traded, fillPrice);
    WorthDifference(qty, QtyOf(positions, s), price);
    assert Worth(0.0, price) == 0.0;
    hide Worth;
    if qty == 0.0 {
      assert after == before - {s};
      SumRemove(before, s);
    } else {
      assert after == before[s := Worth(qty, price)];
      SumUpdate(before, s, Worth(qty, price));
    }
  }

  /** The order the workflow sends to the gate: notional and cash impact are recomputed from quantity times price. */
  function GateOrder(symbol: string, side: Side, qty: real, price: real): Order {
    var notional := Worth(qty, price);
    var impact := match side case Buy => -notional case Sell => notional case Other(_) => 0.0;
    Order(symbol, side, qty, notional, impact, price)
  }

  /** Paying for `delta` units at the fill price leaves equity where it was; a negative `delta` is a sale. */
  lemma TradeIsValueNeutral(cash: real, positions: map<string, real>, marks: map<string, real>, symbol: string,
        delta: real, price: real)
    requires price > 0.0
    ensures EquityOf(cash - Worth(delta, price), positions[symbol := QtyOf(positions, symbol) + delta],
                     marks, symbol, price)
         == EquityOf(cash, positions, marks, symbol, price)
  {
    hide Worth, Values, Sum;
    ValuesUpdate(positions, marks, symbol, QtyOf(positions, symbol) + delta, symbol, price);
  }

  /** Trading at the fill price moves value between cash and the position, so equity after the trade
      does not depend on the quantity. */
  lemma PostEquityIgnoresQuantity(state: PortfolioState, symbol: string, side: Side, qty: real, price: real)
    requires price > 0.0
    ensures PostEquity(state, GateOrder(symbol, side, qty, price))
         == EquityOf(state.cash, state.positions, state.marks, symbol, price)
  {
    var delta := if side.Sell? then -qty else qty;
    assert Worth(-qty, price) == -Worth(qty, price);
    hide Worth, EquityOf;
    TradeIsValueNeutral(state.cash, state.positions, state.marks, symbol, delta, price);
  }

  /** Weights after a buy of `qty`, as the gate computes them. */
  function BuyWeights(state: PortfolioState, symbol: string, qty: real, price: real, equity: real): map<string, real>
    requires equity > 0.0
  {
    WeightsOf(PostPositions(state, GateOrder(symbol, Buy, qty, price)), equity, state.marks, symbol, price)
  }

  /** A smaller buy of the same symbol leaves every weight at or below what the larger buy leaves. */
  lemma SmallerBuyWeighsLess(state: PortfolioState, symbol: string, small: real, large: real, price: real,
        equity: real, s: string)
    requires 0.0 < small <= large && price > 0.0 && equity > 0.0
    ensures QtyOf(BuyWeights(state, symbol, small, price, equity), s)
         <= QtyOf(BuyWeights(state, symbol, large, price, equity), s)
  {
    var held := QtyOf(state.positions, symbol);
    WorthMonotone(held + small, held + large, price);
    RatioMonotone(Worth(held + small, price), Worth(held + large, price), equity);
    assert Worth(0.0, price) == 0.0 && Ratio(0.0, equity) == 0.0;
    hide Worth, Ratio;
    if s == symbol {
      assert QtyOf(BuyWeights(state, symbol, small, price, equity), s) == Ratio(Worth(held + small, price), equity);
      assert QtyOf(BuyWeights(state, symbol, large, price, equity), s) == Ratio(Worth(held + large, price), equity);
    }
  }

  /** The gate is downward closed for buys: shrinking an order that executes by itself never makes it need approval,
      whatever the state and with the concentration rule on or off. */
  lemma GateDownwardClosed(e: Engine, state: PortfolioState, symbol: string, small: real, large: real, price: real)
    requires 0.0 < small <= large && price > 0.0
    requires Evaluate(e, state, GateOrder(symbol, Buy, large, price)).autoExecute
    ensures Evaluate(e, state, GateOrder(symbol, Buy, small, price)).autoExecute
  {
    var p, q := GateOrder(symbol, Buy, small, price), GateOrder(symbol, Buy, large, price);
    AutoExecuteIff(e, state, p);
    AutoExecuteIff(e, state, q);
    PostEquityIgnoresQuantity(state, symbol, Buy, small, price);
    PostEquityIgnoresQuantity(state, symbol, Buy, large, price);
    WorthMonotone(small, large, price);
    WorthMonotone(0.0, small, price);
    assert Worth(0.0, price) == 0.0;
    if state.equity > 0.0 {
      RatioMonotone(state.cash + q.cashImpact, state.cash + p.cashImpact, state.equity);
    }
    var equity := EquityOf(state.cash, state.positions, state.marks, symbol, price);
    hide Worth, Ratio, EquityOf, Evaluate, WeightsOf, PostPositions;
    if equity > 0.0 {
      var w, v := BuyWeights(state, symbol, small, price, equity), BuyWeights(state, symbol, large, price, equity);
      forall s ensures QtyOf(w, s) <= QtyOf(v, s) {
        SmallerBuyWeighsLess(state, symbol, small, large, price, equity, s);
      }
      forall s | s in w && e.maxTopConcentration > 0.0 ensures w[s] <= e.maxTopConcentration {
        assert QtyOf(w, s) <= QtyOf(v, s);
      }
    }
  }
}
