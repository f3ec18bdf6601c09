/** What the proposal loop decides for one proposal, and what filling it does to the risk limits
    (services/api/internal/workflow/runner.go). */
module Gate {
  import opened Sums
  import opened Risk

  /** Any mode string other than the two special ones behaves as `RequireApproval`. */
  datatype Mode = RequireApproval | AutoReject | BypassRisk

  /** One proposal of the portfolio agent. */
  datatype Draft = Draft(symbol: string, side: Side, qty: real, estimatedNotional: real)

  datatype Verdict =
    | NotHoldable
    | MissingMark
    | AutoRejected(breaches: seq<string>)
    | NeedsApproval(breaches: seq<string>)
    | Skipped
    | Submit

  predicate Holdable(hold: map<string, bool>, symbol: string) {
    symbol in hold && hold[symbol]
  }

  ghost function VerdictOf(e: Engine, mode: Mode, hold: map<string, bool>, marks: map<string, real>,
        state: PortfolioState, d: Draft): Verdict {
    if d.side.Buy? && !Holdable(hold, d.symbol) then NotHoldable
    else if d.symbol !in marks || marks[d.symbol] <= 0.0 then MissingMark
    else if mode.BypassRisk? then (if d.qty > 0.0 then Submit else Skipped)
    else
      var decision := Evaluate(e, state, GateOrder(d.symbol, d.side, d.qty, marks[d.symbol]));
      if decision.autoExecute then Submit
      else if mode.AutoReject? then AutoRejected(decision.breaches)
      else NeedsApproval(decision.breaches)
  }

  method Judge(e: Engine, mode: Mode, hold: map<string, bool>, marks: map<string, real>, state: PortfolioState,
        d: Draft)
    returns (v: Verdict)
    ensures v == VerdictOf(e, mode, hold, marks, state, d)
  {
    hide Evaluate, GateOrder;
    if d.side.Buy? && !Holdable(hold, d.symbol) {
      return NotHoldable;
    }
    if d.symbol !in marks || marks[d.symbol] <= 0.0 {
      return MissingMark;
    }
    if mode.BypassRisk? {
      return if d.qty > 0.0 then Submit else Skipped;
    }
    var decision := EvaluateOrder(e, state, GateOrder(d.symbol, d.side, d.qty, marks[d.symbol]));
    if decision.autoExecute {
      return Submit;
    }
    return if mode.AutoReject? then AutoRejected(decision.breaches) else NeedsApproval(decision.breaches);
  }

  /* ------------------------------------------------------------------ limits under one fill */

  /** What the broker holds for the account. */
  datatype Holdings = Holdings(cash: real, positions: map<string, real>)

  ghost function Equity(h: Holdings, marks: map<string, real>): real {
    EquityOf(h.cash, h.positions, marks, "", 0.0)
  }

  /** The state the loop reads back from the broker: account equity is cash plus marked positions. */
  ghost function StateOf(h: Holdings, marks: map<string, real>): PortfolioState {
    PortfolioState(h.cash, Equity(h, marks), h.positions, marks)
  }

  /** Every held symbol has a positive mark and no position is short. */
  predicate Marked(h: Holdings, marks: map<string, real>) {
    && (forall s :: s in marks ==> marks[s] > 0.0)
    && (forall s :: s in h.positions ==> s in marks && h.positions[s] >= 0.0)
  }

  /** A single name is bounded by its own limit and, when that is positive, by the concentration limit. */
  predicate WeightOk(e: Engine, weight: real) {
    weight <= e.maxSingleNameWeight && (e.maxTopConcentration > 0.0 ==> weight <= e.maxTopConcentration)
  }

  ghost predicate WithinLimits(e: Engine, h: Holdings, marks: map<string, real>)
    requires Marked(h, marks)
  {
    var equity := Equity(h, marks);
    && equity > 0.0
    && Ratio(h.cash, equity) >= e.minCashRatio
    && forall s :: s in h.positions && h.positions[s] > 0.0 ==>
          WeightOk(e, Ratio(Worth(h.positions[s], marks[s]), equity))
  }

  /** Positive marks, no short position, and cash ratio and weights within their limits. */
  ghost predicate Safe(e: Engine, h: Holdings, marks: map<string, real>) {
    Marked(h, marks) && WithinLimits(e, h, marks)
  }

  /** What a broker may do with an order: it fills a positive part of a buy or a sale, and sells nothing the account
      does not hold. */
  predicate Fillable(h: Holdings, d: Draft) {
    && d.qty > 0.0
    && !d.side.Other?
    && (d.side.Sell? ==> d.qty <= QtyOf(h.positions, d.symbol))
  }

  function Shifted(h: Holdings, symbol: string, delta: real, price: real): Holdings {
    Holdings(h.cash - Worth(delta, price), h.positions[symbol := QtyOf(h.positions, symbol) + delta])
  }

  /** The change in position an order asks for. */
  function Delta(d: Draft): real {
    if d.side.Sell? then -d.qty else d.qty
  }

  /** Filled in full at `price`. */
  function Filled(h: Holdings, d: Draft, price: real): Holdings {
    Shifted(h, d.symbol, Delta(d), price)
  }

  /** With a mark for every held symbol, valuing the traded symbol at its mark changes nothing. */
  lemma FillPriceIsMark(cash: real, positions: map<string, real>, marks: map<string, real>, symbol: string)
    requires forall s :: s in positions ==> s in marks
    requires symbol in marks && marks[symbol] > 0.0
    ensures EquityOf(cash, positions, marks, symbol, marks[symbol]) == EquityOf(cash, positions, marks, "", 0.0)
  {
    hide Worth, Sum;
    assert Values(positions, marks, symbol, marks[symbol]) == Values(positions, marks, "", 0.0);
  }

  /** A fill at the mark moves value between cash and the position. */
  lemma FillKeepsEquity(h: Holdings, marks: map<string, real>, d: Draft)
    requires Marked(h, marks) && d.symbol in marks
    ensures Equity(Filled(h, d, marks[d.symbol]), marks) == Equity(h, marks)
  {
    var price := marks[d.symbol];
    var after := Filled(h, d, price);
    hide Worth, EquityOf, QtyOf;
    FillPriceIsMark(after.cash, after.positions, marks, d.symbol);
    TradeIsValueNeutral(h.cash, h.positions, marks, d.symbol, Delta(d), price);
    FillPriceIsMark(h.cash, h.positions, marks, d.symbol);
  }

  /* ------------------------------------------------------------------ flat positions */

  /** The same state up to rows of flat positions, which a broker may list or drop. */
  ghost predicate SameState(a: PortfolioState, b: PortfolioState) {
    && a.cash == b.cash && a.equity == b.equity && a.marks == b.marks
    && forall s :: QtyOf(a.positions, s) == QtyOf(b.positions, s)
  }

  lemma SameValues(a: map<string, real>, b: map<string, real>, marks: map<string, real>, traded: string, price: real)
    requires forall s :: QtyOf(a, s) == QtyOf(b, s)
    ensures Values(a, marks, traded, price) == Values(b, marks, traded, price)
  {
    hide Worth, MarkPrice;
    forall s ensures s in Values(a, marks, traded, price) <==> s in Values(b, marks, traded, price) {
      assert QtyOf(a, s) == QtyOf(b, s);
    }
    forall s | s in Values(a, marks, traded, price)
      ensures Values(a, marks, traded, price)[s] == Values(b, marks, traded, price)[s]
    {
      assert QtyOf(a, s) == QtyOf(b, s);
    }
  }

  lemma SamePost(a: PortfolioState, b: PortfolioState, p: Order)
    requires SameState(a, b)
    ensures forall s :: QtyOf(PostPositions(a, p), s) == QtyOf(PostPositions(b, p), s)
  {
    assert QtyOf(a.positions, p.symbol) == QtyOf(b.positions, p.symbol);
    forall s ensures QtyOf(PostPositions(a, p), s) == QtyOf(PostPositions(b, p), s) {
      assert QtyOf(a.positions, s) == QtyOf(b.positions, s);
    }
  }

  /** The gate does not see rows of flat positions. */
  lemma SameVerdict(e: Engine, mode: Mode, hold: map<string, bool>, marks: map<string, real>, a: PortfolioState,
        b: PortfolioState, d: Draft)
    requires SameState(a, b)
    ensures VerdictOf(e, mode, hold, marks, a, d) == VerdictOf(e, mode, hold, marks, b, d)
  {
    if d.symbol in marks {
      var p := GateOrder(d.symbol, d.side, d.qty, marks[d.symbol]);
      SameDecision(e, a, b, p);
      hide Evaluate, GateOrder, SameState;
    }
  }

  lemma SameDecision(e: Engine, a: PortfolioState, b: PortfolioState, p: Order)
    requires SameState(a, b)
    ensures Evaluate(e, a, p) == Evaluate(e, b, p)
  {
    SamePost(a, b, p);
    SameValues(PostPositions(a, p), PostPositions(b, p), a.marks, p.symbol, p.fillPrice);
    hide Worth, Ratio, Values, PostPositions, QtyOf;
    assert PostEquity(a, p) == PostEquity(b, p);
    var equity := PostEquity(a, p);
    if equity > 0.0 {
      assert WeightsOf(PostPositions(a, p), equity, a.marks, p.symbol, p.fillPrice)
          == WeightsOf(PostPositions(b, p), equity, b.marks, p.symbol, p.fillPrice);
    }
    hide WeightsOf, EquityOf;
  }

  /** Dropping the row of a position that was sold out changes nothing. */
  lemma DroppedRowIsSame(h: Holdings, marks: map<string, real>, symbol: string)
    requires QtyOf(h.positions, symbol) == 0.0
    ensures SameState(StateOf(h, marks), StateOf(h.(positions := h.positions - {symbol}), marks))
  {
    hide Values;
    SameValues(h.positions, h.positions - {symbol}, marks, "", 0.0);
  }

  /* ------------------------------------------------------------------ what the gate sees */

  /** The gate judges an order by the holdings that filling it at the mark would leave. */
  lemma GateSeesFill(h: Holdings, marks: map<string, real>, d: Draft)
    requires Marked(h, marks) && d.symbol in marks && !d.side.Other?
    ensures var state, p := StateOf(h, marks), GateOrder(d.symbol, d.side, d.qty, marks[d.symbol]);
            var after := Filled(h, d, marks[d.symbol]);
            && PostPositions(state, p) == after.positions && state.cash + p.cashImpact == after.cash
            && PostEquity(state, p) == Equity(h, marks)
  {
    var price := marks[d.symbol];
    assert Worth(-d.qty, price) == -Worth(d.qty, price);
    hide Worth, EquityOf;
    PostEquityIgnoresQuantity(StateOf(h, marks), d.symbol, d.side, d.qty, price);
    FillPriceIsMark(h.cash, h.positions, marks, d.symbol);
  }

  /** Weights after the fill. */
  lemma WeightsAfter(after: map<string, real>, equity: real, marks: map<string, real>, symbol: string)
    requires equity > 0.0 && symbol in marks && marks[symbol] > 0.0 && forall s :: s in after ==> s in marks
    ensures var w := WeightsOf(after, equity, marks, symbol, marks[symbol]);
            && (forall s :: s in w <==> s in after && after[s] != 0.0)
            && (forall s :: s in w ==> w[s] == Ratio(Worth(after[s], marks[s]), equity))
            && QtyOf(w, symbol) == Ratio(Worth(QtyOf(after, symbol), marks[symbol]), equity)
  {
    assert Worth(0.0, marks[symbol]) == 0.0 && Ratio(0.0, equity) == 0.0;
    hide Worth, Ratio;
  }

  /** The gate in terms of the holdings after the fill: the order is small enough, cash does not fall below its ratio, a
      buy does not outgrow the single-name limit, and no position outgrows the concentration limit. */
  ghost predicate FillPasses(e: Engine, h: Holdings, marks: map<string, real>, d: Draft)
    requires Marked(h, marks) && d.symbol in marks && Equity(h, marks) > 0.0
  {
    var after, equity := Filled(h, d, marks[d.symbol]), Equity(h, marks);
    && Worth(d.qty, marks[d.symbol]) <= e.maxOrderNotional
    && (after.cash < h.cash ==> Ratio(after.cash, equity) >= e.minCashRatio)
    && (d.side.Buy? ==>
          Ratio(Worth(QtyOf(after.positions, d.symbol), marks[d.symbol]), equity) <= e.maxSingleNameWeight)
    && (e.maxTopConcentration > 0.0 ==> forall s :: s in after.positions && after.positions[s] != 0.0 ==>
          Ratio(Worth(after.positions[s], marks[s]), equity) <= e.maxTopConcentration)
  }

  lemma PassesIff(e: Engine, h: Holdings, marks: map<string, real>, d: Draft)
    requires Marked(h, marks) && d.symbol in marks && !d.side.Other? && Equity(h, marks) > 0.0
    ensures Evaluate(e, StateOf(h, marks), GateOrder(d.symbol, d.side, d.qty, marks[d.symbol])).autoExecute
       <==> FillPasses(e, h, marks, d)
  {
    var state, p := StateOf(h, marks), GateOrder(d.symbol, d.side, d.qty, marks[d.symbol]);
    var after := Filled(h, d, marks[d.symbol]);
    AutoExecuteIff(e, state, p);
    GateSeesFill(h, marks, d);
    WeightsAfter(after.positions, Equity(h, marks), marks, d.symbol);
    hide Worth, Ratio, EquityOf, Evaluate, WeightsOf, PostPositions, Equity, QtyOf;
  }

  /* ------------------------------------------------------------------ limits under one fill */

  /** A position that shrinks raises cash and lowers one weight, so no limit can break. */
  lemma ShrinkingIsSafe(e: Engine, h: Holdings, marks: map<string, real>, d: Draft)
    requires Safe(e, h, marks) && d.symbol in marks
    requires Delta(d) <= 0.0 && QtyOf(h.positions, d.symbol) + Delta(d) >= 0.0
    ensures Safe(e, Filled(h, d, marks[d.symbol]), marks)
  {
    var price := marks[d.symbol];
    FillKeepsEquity(h, marks, d);
    var equity, held := Equity(h, marks), QtyOf(h.positions, d.symbol);
    WorthMonotone(Delta(d), 0.0, price);
    assert Worth(0.0, price) == 0.0;
    RatioMonotone(h.cash, Filled(h, d, price).cash, equity);
    WorthMonotone(held + Delta(d), held, price);
    RatioMonotone(Worth(held + Delta(d), price), Worth(held, price), equity);
    hide Worth, Ratio, Equity;
  }

  /** A growing position that passes the gate keeps every limit, if its weight is within the single-name limit. */
  lemma GrowingIsSafe(e: Engine, h: Holdings, marks: map<string, real>, d: Draft)
    requires Safe(e, h, marks) && d.symbol in marks && FillPasses(e, h, marks, d) && Delta(d) > 0.0
    requires var worth := Worth(QtyOf(h.positions, d.symbol) + Delta(d), marks[d.symbol]);
             Ratio(worth, Equity(h, marks)) <= e.maxSingleNameWeight
    ensures Safe(e, Filled(h, d, marks[d.symbol]), marks)
  {
    FillKeepsEquity(h, marks, d);
    WorthPositive(Delta(d), marks[d.symbol]);
    hide Worth, Ratio, Equity;
  }

  lemma WorthPositive(qty: real, price: real)
    requires qty > 0.0 && price > 0.0
    ensures Worth(qty, price) > 0.0
  {
  }

  /** The gate is exact. Outside `bypass_risk` and from holdings within their limits, an order that a broker can fill is
      submitted exactly when its notional is small enough and filling it at the mark leaves the holdings within their
      limits. */
  lemma SubmitIff(e: Engine, mode: Mode, hold: map<string, bool>, h: Holdings, marks: map<string, real>, d: Draft)
    requires !mode.BypassRisk? && Safe(e, h, marks) && Fillable(h, d) && d.symbol in marks
    requires d.side.Buy? ==> Holdable(hold, d.symbol)
    ensures VerdictOf(e, mode, hold, marks, StateOf(h, marks), d).Submit?
       <==> Worth(d.qty, marks[d.symbol]) <= e.maxOrderNotional && Safe(e, Filled(h, d, marks[d.symbol]), marks)
  {
    PassesIff(e, h, marks, d);
    if d.side.Sell? {
      ShrinkingIsSafe(e, h, marks, d);
      SalePasses(e, h, marks, d);
    } else if FillPasses(e, h, marks, d) {
      GrowingIsSafe(e, h, marks, d);
    } else if Safe(e, Filled(h, d, marks[d.symbol]), marks) && Worth(d.qty, marks[d.symbol]) <= e.maxOrderNotional {
      SafeBuyPasses(e, h, marks, d);
    }
    hide FillPasses, Safe, Evaluate, GateOrder, StateOf, Filled;
  }

  /** A sale of no more than is held passes the gate if its notional does. */
  lemma SalePasses(e: Engine, h: Holdings, marks: map<string, real>, d: Draft)
    requires Safe(e, h, marks) && Fillable(h, d) && d.symbol in marks && d.side.Sell?
    requires Safe(e, Filled(h, d, marks[d.symbol]), marks)
    ensures FillPasses(e, h, marks, d) <==> Worth(d.qty, marks[d.symbol]) <= e.maxOrderNotional
  {
    FillKeepsEquity(h, marks, d);
    var after, equity := Filled(h, d, marks[d.symbol]), Equity(h, marks);
    hide Worth, Ratio, Equity, Filled;
    forall s | e.maxTopConcentration > 0.0 && s in after.positions && after.positions[s] != 0.0
      ensures Ratio(Worth(after.positions[s], marks[s]), equity) <= e.maxTopConcentration
    {
      assert after.positions[s] > 0.0;
    }
  }

  lemma SafeBuyPasses(e: Engine, h: Holdings, marks: map<string, real>, d: Draft)
    requires Safe(e, h, marks) && Fillable(h, d) && d.symbol in marks && d.side.Buy?
    requires Safe(e, Filled(h, d, marks[d.symbol]), marks) && Worth(d.qty, marks[d.symbol]) <= e.maxOrderNotional
    ensures FillPasses(e, h, marks, d)
  {
    FillKeepsEquity(h, marks, d);
    assert QtyOf(Filled(h, d, marks[d.symbol]).positions, d.symbol) > 0.0;
    hide Worth, Ratio, Equity;
  }

  /** The part of an order that the broker fills. */
  function Part(d: Draft, qty: real): Draft {
    d.(qty := qty)
  }

  /** A buy that passes the gate keeps every limit, in full or in part. */
  lemma BuyKeepsLimits(e: Engine, h: Holdings, marks: map<string, real>, d: Draft, filled: real)
    requires Safe(e, h, marks) && d.symbol in marks && d.side.Buy? && 0.0 < filled <= d.qty
    requires Evaluate(e, StateOf(h, marks), GateOrder(d.symbol, d.side, d.qty, marks[d.symbol])).autoExecute
    ensures Safe(e, Filled(h, Part(d, filled), marks[d.symbol]), marks)
  {
    GateDownwardClosed(e, StateOf(h, marks), d.symbol, filled, d.qty, marks[d.symbol]);
    PassesIff(e, h, marks, Part(d, filled));
    hide Worth, Ratio, Equity, Evaluate, GateOrder, StateOf;
    GrowingIsSafe(e, h, marks, Part(d, filled));
  }

  /** A sale of at most what is held keeps every limit, whatever the gate says. */
  lemma SaleKeepsLimits(e: Engine, h: Holdings, marks: map<string, real>, d: Draft)
    requires Safe(e, h, marks) && d.symbol in marks && Fillable(h, d) && d.side.Sell?
    ensures Safe(e, Filled(h, d, marks[d.symbol]), marks)
  {
    hide Safe;
    ShrinkingIsSafe(e, h, marks, d);
  }

  /* ------------------------------------------------------------------ any quantity */

  /** Every engine that lets the order through stays within its limits when it is filled at the mark. */
  ghost predicate SafeToSubmit(mode: Mode, hold: map<string, bool>, h: Holdings, marks: map<string, real>, d: Draft)
    requires d.symbol in marks
  {
    forall e: Engine :: Safe(e, h, marks) && VerdictOf(e, mode, hold, marks, StateOf(h, marks), d).Submit? ==>
                          Safe(e, Filled(h, d, marks[d.symbol]), marks)
  }

  /** No more is sold than is held, and a position that a sale of a negative quantity makes larger weighs no more than
      one that is held already. */
  ghost predicate Covered(h: Holdings, marks: map<string, real>, d: Draft)
    requires Marked(h, marks) && d.symbol in marks
  {
    var qty := QtyOf(h.positions, d.symbol) + Delta(d);
    && qty >= 0.0
    && (d.side.Buy? || Delta(d) <= 0.0 || SomethingOutweighs(h, marks, Worth(qty, marks[d.symbol])))
  }

  ghost predicate SomethingOutweighs(h: Holdings, marks: map<string, real>, worth: real)
    requires Marked(h, marks)
  {
    exists s :: Outweighs(h, marks, s, worth)
  }

  predicate Outweighs(h: Holdings, marks: map<string, real>, s: string, worth: real)
    requires Marked(h, marks)
  {
    s in h.positions && h.positions[s] > 0.0 && Worth(h.positions[s], marks[s]) >= worth
  }

  /** The sign of the quantity is never checked, and the single-name rule looks at buys only, so what passes the gate is
      not safe in general.  It is, for given holdings and any engine, exactly when the order is `Covered`. */
  lemma SafeToSubmitIff(mode: Mode, hold: map<string, bool>, h: Holdings, marks: map<string, real>, d: Draft)
    requires !mode.BypassRisk? && Marked(h, marks) && Equity(h, marks) > 0.0 && d.symbol in marks && !d.side.Other?
    requires d.side.Buy? ==> Holdable(hold, d.symbol)
    ensures SafeToSubmit(mode, hold, h, marks, d) <==> Covered(h, marks, d)
  {
    if Covered(h, marks, d) {
      forall e: Engine | Safe(e, h, marks) && VerdictOf(e, mode, hold, marks, StateOf(h, marks), d).Submit?
        ensures Safe(e, Filled(h, d, marks[d.symbol]), marks)
      {
        CoveredIsSafe(e, mode, hold, h, marks, d);
      }
    } else if QtyOf(h.positions, d.symbol) + Delta(d) < 0.0 {
      OversoldIsUnsafe(mode, hold, h, marks, d);
    } else {
      OutgrownIsUnsafe(mode, hold, h, marks, d);
    }
    hide Safe, VerdictOf, StateOf, Filled, Equity, Worth;
  }

  lemma CoveredIsSafe(e: Engine, mode: Mode, hold: map<string, bool>, h: Holdings, marks: map<string, real>, d: Draft)
    requires !mode.BypassRisk? && Safe(e, h, marks) && d.symbol in marks && !d.side.Other? && Covered(h, marks, d)
    requires VerdictOf(e, mode, hold, marks, StateOf(h, marks), d).Submit?
    ensures Safe(e, Filled(h, d, marks[d.symbol]), marks)
  {
    PassesIff(e, h, marks, d);
    hide Evaluate, GateOrder, StateOf, Equity, Worth, Ratio;
    if Delta(d) <= 0.0 {
      ShrinkingIsSafe(e, h, marks, d);
    } else if d.side.Buy? {
      GrowingIsSafe(e, h, marks, d);
    } else {
      var worth := Worth(QtyOf(h.positions, d.symbol) + Delta(d), marks[d.symbol]);
      var s :| Outweighs(h, marks, s, worth);
      RatioMonotone(worth, Worth(h.positions[s], marks[s]), Equity(h, marks));
      GrowingIsSafe(e, h, marks, d);
    }
  }

  /** A bound for values that are all below `top`, itself below `top`. */
  lemma {:induction false} BoundBelow(m: map<string, real>, top: real) returns (bound: real)
    requires forall s :: s in m ==> m[s] < top
    ensures bound < top && forall s :: s in m ==> m[s] <= bound
    decreases |m|
  {
    bound := top - 1.0;
    if m != map[] {
      var k :| k in m;
      var rest := BoundBelow(m - {k}, top);
      assert forall s :: s in m && s != k ==> s in m - {k} && m[s] == (m - {k})[s];
      bound := if m[k] > rest then m[k] else rest;
    }
  }

  lemma {:induction false} BoundAbove(m: map<string, real>) returns (bound: real)
    ensures bound >= 0.0 && forall s :: s in m ==> m[s] <= bound
    decreases |m|
  {
    bound := 0.0;
    if m != map[] {
      var k :| k in m;
      var rest := BoundAbove(m - {k});
      assert forall s :: s in m && s != k ==> s in m - {k} && m[s] == (m - {k})[s];
      bound := if m[k] > rest then m[k] else rest;
    }
  }

  function LongWorth(h: Holdings, marks: map<string, real>): map<string, real>
    requires Marked(h, marks)
  {
    map s | s in h.positions && h.positions[s] > 0.0 :: Worth(h.positions[s], marks[s])
  }

  /** An engine that only bounds single names, by `bound`, and asks for no more cash than there is before and after. */
  ghost function Lenient(h: Holdings, marks: map<string, real>, d: Draft, bound: real): Engine
    requires Marked(h, marks) && d.symbol in marks && Equity(h, marks) > 0.0
  {
    var equity, after := Equity(h, marks), Filled(h, d, marks[d.symbol]);
    Engine(Worth(d.qty, marks[d.symbol]), Ratio(bound, equity),
           Ratio(if after.cash < h.cash then after.cash else h.cash, equity), 0.0)
  }

  lemma LenientIsSafe(h: Holdings, marks: map<string, real>, d: Draft, bound: real)
    requires Marked(h, marks) && Equity(h, marks) > 0.0 && d.symbol in marks
    requires forall s :: s in LongWorth(h, marks) ==> LongWorth(h, marks)[s] <= bound
    ensures Safe(Lenient(h, marks, d, bound), h, marks)
  {
    var equity, after := Equity(h, marks), Filled(h, d, marks[d.symbol]);
    if after.cash < h.cash {
      RatioMonotone(after.cash, h.cash, equity);
    }
    forall s | s in h.positions && h.positions[s] > 0.0
      ensures Ratio(Worth(h.positions[s], marks[s]), equity) <= Ratio(bound, equity)
    {
      assert LongWorth(h, marks)[s] <= bound;
      RatioMonotone(Worth(h.positions[s], marks[s]), bound, equity);
    }
    hide Worth, Ratio, Equity, Filled;
  }

  lemma LenientSubmits(mode: Mode, hold: map<string, bool>, h: Holdings, marks: map<string, real>, d: Draft,
        bound: real)
    requires !mode.BypassRisk? && Marked(h, marks) && Equity(h, marks) > 0.0 && d.symbol in marks && !d.side.Other?
    requires d.side.Buy? ==>
               Holdable(hold, d.symbol) && Worth(QtyOf(h.positions, d.symbol) + Delta(d), marks[d.symbol]) <= bound
    ensures VerdictOf(Lenient(h, marks, d, bound), mode, hold, marks, StateOf(h, marks), d).Submit?
  {
    PassesIff(Lenient(h, marks, d, bound), h, marks, d);
    if d.side.Buy? {
      RatioMonotone(Worth(QtyOf(h.positions, d.symbol) + Delta(d), marks[d.symbol]), bound, Equity(h, marks));
    }
    hide Evaluate, GateOrder, StateOf, Equity, Worth, Ratio;
  }

  /** Selling more than is held leaves a short position, and the gate does not mind. */
  lemma OversoldIsUnsafe(mode: Mode, hold: map<string, bool>, h: Holdings, marks: map<string, real>, d: Draft)
    requires !mode.BypassRisk? && Marked(h, marks) && Equity(h, marks) > 0.0 && d.symbol in marks && !d.side.Other?
    requires d.side.Buy? ==> Holdable(hold, d.symbol)
    requires QtyOf(h.positions, d.symbol) + Delta(d) < 0.0
    ensures !SafeToSubmit(mode, hold, h, marks, d)
  {
    var bound := BoundAbove(LongWorth(h, marks));
    WorthMonotone(QtyOf(h.positions, d.symbol) + Delta(d), 0.0, marks[d.symbol]);
    assert Worth(0.0, marks[d.symbol]) == 0.0;
    var after := Filled(h, d, marks[d.symbol]);
    assert after.positions[d.symbol] < 0.0 && !Marked(after, marks);
    hide Worth, Ratio, Equity, VerdictOf, Filled, WithinLimits, Marked, Lenient, LongWorth;
    LenientIsSafe(h, marks, d, bound);
    LenientSubmits(mode, hold, h, marks, d, bound);
  }

  /** A sale of a negative quantity grows its position past everything that is held. */
  lemma OutgrownIsUnsafe(mode: Mode, hold: map<string, bool>, h: Holdings, marks: map<string, real>, d: Draft)
    requires !mode.BypassRisk? && Marked(h, marks) && Equity(h, marks) > 0.0 && d.symbol in marks
    requires d.side.Sell? && Delta(d) > 0.0
    requires !Covered(h, marks, d) && QtyOf(h.positions, d.symbol) + Delta(d) >= 0.0
    ensures !SafeToSubmit(mode, hold, h, marks, d)
  {
    var price, equity := marks[d.symbol], Equity(h, marks);
    var worth := Worth(QtyOf(h.positions, d.symbol) + Delta(d), price);
    forall s | s in LongWorth(h, marks) ensures LongWorth(h, marks)[s] < worth {
      assert !SomethingOutweighs(h, marks, worth);
      assert !Outweighs(h, marks, s, worth);
    }
    var bound := BoundBelow(LongWorth(h, marks), worth);
    var e := Lenient(h, marks, d, bound);
    FillKeepsEquity(h, marks, d);
    StrictRatio(bound, worth, equity);
    assert !Safe(e, Filled(h, d, price), marks) by {
      assert Filled(h, d, price).positions[d.symbol] > 0.0;
      hide Worth, Ratio, Equity;
    }
    hide Worth, Ratio, Equity, VerdictOf, Filled, WithinLimits, Marked, Lenient, LongWorth, Safe, Outweighs;
    LenientIsSafe(h, marks, d, bound);
    LenientSubmits(mode, hold, h, marks, d, bound);
  }

  lemma StrictRatio(a: real, b: real, d: real)
    requires a < b && d > 0.0
    ensures Ratio(a, d) < Ratio(b, d)
  {
  }

  /** For example: in an all-cash account a "sale" of -qty passes with the concentration rule off as soon as the cash
      rule allows it, although filling it puts more than the single-name limit into one symbol (cash 1000, price 1, qty
      400, limits 10% cash and 20% weight). */
  lemma NegativeSaleEscapesWeightRule(e: Engine, cash: real, symbol: string, qty: real, price: real,
        marks: map<string, real>, hold: map<string, bool>)
    requires e.maxOrderNotional >= 0.0 && e.maxTopConcentration <= 0.0
    requires cash > 0.0 && qty > 0.0 && price > 0.0
    requires (forall s :: s in marks ==> marks[s] > 0.0) && symbol in marks && marks[symbol] == price
    requires Ratio(cash, cash) >= e.minCashRatio
    requires Ratio(cash - Worth(qty, price), cash) >= e.minCashRatio
    requires Ratio(Worth(qty, price), cash) > e.maxSingleNameWeight
    ensures var h := Holdings(cash, map[]);
            var d := Draft(symbol, Sell, -qty, 0.0);
            && Safe(e, h, marks)
            && VerdictOf(e, RequireApproval, hold, marks, StateOf(h, marks), d).Submit?
            && Marked(Filled(h, d, price), marks) && !Safe(e, Filled(h, d, price), marks)
  {
    var h := Holdings(cash, map[]);
    var d := Draft(symbol, Sell, -qty, 0.0);
    WorthPositive(qty, price);
    assert Worth(-qty, price) == -Worth(qty, price);
    hide Worth, Ratio;
    assert Values(map[], marks, "", 0.0) == map[];
    assert Equity(h, marks) == cash;
    FillKeepsEquity(h, marks, d);
    PassesIff(e, h, marks, d);
    assert Filled(h, d, price).positions[symbol] == qty;
    hide Equity, Evaluate, GateOrder, StateOf;
  }
}
