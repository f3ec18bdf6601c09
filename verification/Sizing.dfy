/** Position sizing (services/agents/common/stock_agents_common/tools/sizing.py). */
module Sizing {
  import opened Common

  /** An absent symbol or side reads as "". */
  datatype Item = Item(symbol: string, side: string)

  /** A row of the account's positions; either key may be missing. */
  datatype Row = Row(symbol: Option<string>, qty: Option<real>)

  datatype Proposal = Proposal(symbol: string, side: string, qty: real, stop: real, take: real, notional: real,
        impact: real)

  datatype Sized = Sized(proposals: seq<Proposal>, warnings: seq<string>) | Raised

  /** What the tool reads from the request. */
  datatype Context = Context(cash: real, rows: seq<Row>, closes: map<string, real>, cap: real)

  function PositionsBySymbol(rows: seq<Row>): map<string, Row> {
    if rows == [] then map[]
    else
      var r := rows[|rows| - 1];
      var before := PositionsBySymbol(rows[..|rows| - 1]);
      if r.symbol.Some? then before[r.symbol.value := r] else before
  }

  function Min(a: real, b: real): real {
    if a <= b then a else b
  }

  function Budget(c: Context): real {
    Min(c.cap, c.cash * 0.05)
  }

  function Times(qty: real, close: real): real {
    qty * close
  }

  /** The whole part of budget over close. */
  function WholeLots(budget: real, close: real): int
    requires close > 0.0
  {
    (budget / close).Floor
  }

  /** A quarter of a position in whole lots, at least one lot, at most all of it. */
  function SellLots(held: real): real {
    var lots := (held * 0.25).Floor;
    Min(held, (if lots > 1 then lots else 1) as real)
  }

  function Propose(symbol: string, side: string, qty: real, close: real): Proposal {
    var notional := Times(qty, close);
    Proposal(symbol, side, qty, close * 0.9, close * 1.1, notional, if side == "buy" then -notional else notional)
  }

  datatype Verdict = Skip | Proposes(proposal: Proposal) | Warns(warning: string) | Raises

  /** What one item comes to. */
  function Judge(c: Context, item: Item): Verdict {
    if item.symbol == "" || item.side == "" || item.side == "hold" then Skip
    else if item.symbol !in c.closes || c.closes[item.symbol] <= 0.0 then
      Warns("missing_or_invalid_close:" + item.symbol)
    else
      var close := c.closes[item.symbol];
      if item.side == "buy" then
        var lots := WholeLots(Budget(c), close);
        if lots <= 0 then Warns("buy_qty_zero:" + item.symbol)
        else Proposes(Propose(item.symbol, "buy", lots as real, close))
      else if item.side == "sell" then
        var positions := PositionsBySymbol(c.rows);
        if item.symbol in positions && positions[item.symbol].qty.None? then Raises
        else
          var held := if item.symbol in positions then positions[item.symbol].qty.value else 0.0;
          if held <= 0.0 then Warns("sell_no_position:" + item.symbol)
          else Proposes(Propose(item.symbol, "sell", SellLots(held), close))
      else Warns("unknown_side:" + item.symbol + ":" + item.side)
  }

  /** All items in order; an exception at any of them drops everything. */
  function JudgeAll(c: Context, items: seq<Item>): Sized {
    if items == [] then Sized([], [])
    else
      var before := JudgeAll(c, items[..|items| - 1]);
      if before.Raised? then Raised
      else
        match Judge(c, items[|items| - 1])
        case Skip => before
        case Raises => Raised
        case Proposes(p) => before.(proposals := before.proposals + [p])
        case Warns(w) => before.(warnings := before.warnings + [w])
  }

  /** The items to size: those given, else the analyst's, else the older decision intents. */
  function ResolveItems(items: Option<seq<Item>>, analyst: Option<seq<Item>>, intents: seq<Item>): seq<Item> {
    if items.Some? then items.value else analyst.GetOr(intents)
  }

  lemma {:induction false} RaisedStays(c: Context, items: seq<Item>, n: nat)
    requires n <= |items| && JudgeAll(c, items[..n]).Raised?
    ensures JudgeAll(c, items).Raised?
    decreases |items|
  {
    if n == |items| {
      assert items[..n] == items;
    } else {
      var before := items[..|items| - 1];
      assert before[..n] == items[..n];
      RaisedStays(c, before, n);
    }
  }

  method SizeProposals(c: Context, given: Option<seq<Item>>, analyst: Option<seq<Item>>,
        intents: seq<Item>) returns (r: Sized)
    ensures r == JudgeAll(c, ResolveItems(given, analyst, intents))
    ensures given.Some? ==> r == JudgeAll(c, given.value)
    ensures given.None? && analyst.Some? ==> r == JudgeAll(c, analyst.value)
    ensures given.None? && analyst.None? ==> r == JudgeAll(c, intents)
  {
    hide Propose, WholeLots, SellLots, Budget, PositionsBySymbol;
    var positions := PositionsBySymbol(c.rows);
    var items := ResolveItems(given, analyst, intents);
    var proposals: seq<Proposal> := [];
    var warnings: seq<string> := [];
    for i := 0 to |items|
      invariant JudgeAll(c, items[..i]) == Sized(proposals, warnings)
    {
      var symbol, side := items[i].symbol, items[i].side;
      assert items[..i + 1][..i] == items[..i];
      if symbol == "" || side == "" {
        continue;
      }
      if side == "hold" {
        continue;
      }
      if symbol !in c.closes || c.closes[symbol] <= 0.0 {
        warnings := warnings + ["missing_or_invalid_close:" + symbol];
        continue;
      }
      var close := c.closes[symbol];
      if side == "buy" {
        var lots := WholeLots(Budget(c), close);
        if lots <= 0 {
          warnings := warnings + ["buy_qty_zero:" + symbol];
          continue;
        }
        proposals := proposals + [Propose(symbol, "buy", lots as real, close)];
        continue;
      }
      if side == "sell" {
        var held := 0.0;
        if symbol in positions {
          if positions[symbol].qty.None? {
            RaisedStays(c, items, i + 1);
            return Raised;
          }
          held := positions[symbol].qty.value;
        }
        if held <= 0.0 {
          warnings := warnings + ["sell_no_position:" + symbol];
          continue;
        }
        proposals := proposals + [Propose(symbol, "sell", SellLots(held), close)];
        continue;
      }
      warnings := warnings + ["unknown_side:" + symbol + ":" + side];
    }
    assert items[..|items|] == items;
    r := Sized(proposals, warnings);
  }

  /* ------------------------------------------------------------------ bounds */

  /** The largest whole quantity a budget pays for. */
  predicate LargestWithin(qty: real, close: real, budget: real) {
    && qty >= 1.0 && qty == qty.Floor as real
    && Times(qty, close) <= budget < Times(qty + 1.0, close)
  }

  lemma WholeLotsFit(budget: real, close: real)
    requires close > 0.0
    ensures var n := WholeLots(budget, close); Times(n as real, close) <= budget < Times(n as real + 1.0, close)
  {
    var q := budget / close;
    var n := q.Floor;
    assert Times(q, close) == budget;
    assert n as real <= q < n as real + 1.0;
    TimesMonotone(n as real, q, close);
    TimesStrict(q, n as real + 1.0, close);
  }

  lemma TimesMonotone(a: real, b: real, close: real)
    requires a <= b && close > 0.0
    ensures Times(a, close) <= Times(b, close)
  {
  }

  lemma TimesStrict(a: real, b: real, close: real)
    requires a < b && close > 0.0
    ensures Times(a, close) < Times(b, close)
  {
  }

  /** The quantity the account holds of a symbol: that of its last row. */
  function HeldQty(rows: seq<Row>, symbol: string): real {
    var positions := PositionsBySymbol(rows);
    if symbol in positions && positions[symbol].qty.Some? then positions[symbol].qty.value else 0.0
  }

  lemma {:induction false} LastRowCounts(rows: seq<Row>, i: nat, symbol: string)
    requires i < |rows| && rows[i].symbol == Some(symbol)
    requires forall j :: i < j < |rows| ==> rows[j].symbol != Some(symbol)
    ensures symbol in PositionsBySymbol(rows) && PositionsBySymbol(rows)[symbol] == rows[i]
  {
    if i < |rows| - 1 {
      LastRowCounts(rows[..|rows| - 1], i, symbol);
    }
  }

  /** Within what may be spent on one buy: the cap, and a twentieth of the cash. */
  predicate Affordable(c: Context, cost: real) {
    cost <= c.cap && 20.0 * cost <= c.cash
  }

  /** The quantity to sell: a quarter of what is held in whole lots, the largest there is; one lot where a quarter is
      less than that, or all of what is held where that is less still. */
  predicate QuarterOf(qty: real, held: real) {
    if held >= 4.0 then qty == qty.Floor as real && 4.0 * qty <= held < 4.0 * (qty + 1.0)
    else qty == if held < 1.0 then held else 1.0
  }

  /** A proposal within its bounds: a buy is the largest whole quantity that can be afforded, a sale is a quarter of the
      position in whole lots; the levels are a tenth below and above the price. */
  predicate Bounded(c: Context, p: Proposal) {
    && p.symbol in c.closes && c.closes[p.symbol] > 0.0
    && var close := c.closes[p.symbol];
       && p.notional == Times(p.qty, close)
       && p.stop == 0.9 * close && p.take == 1.1 * close
       && (p.side == "buy" || p.side == "sell")
       && (p.side == "buy" ==>
             && LargestWithin(p.qty, close, Budget(c)) && p.impact == -p.notional
             && Affordable(c, p.notional) && !Affordable(c, Times(p.qty + 1.0, close)))
       && (p.side == "sell" ==>
             && 0.0 < p.qty <= HeldQty(c.rows, p.symbol)
             && p.impact == p.notional
             && QuarterOf(p.qty, HeldQty(c.rows, p.symbol)))
  }

  lemma BudgetIs(c: Context, cost: real)
    ensures cost <= Budget(c) <==> Affordable(c, cost)
  {
  }

  lemma QuarterSold(held: real)
    requires held > 0.0
    ensures QuarterOf(SellLots(held), held) && 0.0 < SellLots(held) <= held
  {
    var lots := (held * 0.25).Floor;
    assert lots as real <= held * 0.25 < lots as real + 1.0;
    assert (lots as real).Floor == lots;
  }

  lemma JudgedIsBounded(c: Context, item: Item)
    requires Judge(c, item).Proposes?
    ensures Bounded(c, Judge(c, item).proposal)
    ensures Judge(c, item).proposal.symbol == item.symbol && Judge(c, item).proposal.side == item.side
  {
    if item.side == "buy" {
      var close := c.closes[item.symbol];
      var n := WholeLots(Budget(c), close);
      WholeLotsFit(Budget(c), close);
      BudgetIs(c, Times(n as real, close));
      BudgetIs(c, Times(n as real + 1.0, close));
      hide WholeLots, Budget, Times, PositionsBySymbol, Affordable;
      assert (n as real).Floor == n;
      assert LargestWithin(n as real, close, Budget(c));
    } else {
      QuarterSold(HeldQty(c.rows, item.symbol));
      hide Times, PositionsBySymbol, Budget, WholeLots, QuarterOf, SellLots;
    }
  }

  function BuyCount(proposals: seq<Proposal>): nat {
    if proposals == [] then 0
    else BuyCount(proposals[..|proposals| - 1]) + (if proposals[|proposals| - 1].side == "buy" then 1 else 0)
  }

  function BuyTotal(proposals: seq<Proposal>): real {
    if proposals == [] then 0.0
    else
      var p := proposals[|proposals| - 1];
      BuyTotal(proposals[..|proposals| - 1]) + (if p.side == "buy" then p.notional else 0.0)
  }

  /** Items that ask for something: with a symbol, and a side other than hold. */
  function Asking(items: seq<Item>): nat {
    if items == [] then 0
    else
      var i := items[|items| - 1];
      Asking(items[..|items| - 1]) + (if i.symbol != "" && i.side != "" && i.side != "hold" then 1 else 0)
  }

  lemma OneMore(n: nat, budget: real)
    ensures Times((n + 1) as real, budget) == Times(n as real, budget) + budget
  {
  }

  lemma {:induction false} AllBounded(c: Context, items: seq<Item>)
    requires JudgeAll(c, items).Sized?
    ensures var ps := JudgeAll(c, items).proposals; forall i :: 0 <= i < |ps| ==> Bounded(c, ps[i])
  {
    if items != [] {
      AllBounded(c, items[..|items| - 1]);
      var item := items[|items| - 1];
      if Judge(c, item).Proposes? {
        JudgedIsBounded(c, item);
      }
      hide Judge, Bounded;
    }
  }

  lemma {:induction false} TotalBounded(c: Context, proposals: seq<Proposal>)
    requires forall i :: 0 <= i < |proposals| ==> Bounded(c, proposals[i])
    ensures BuyTotal(proposals) <= Times(BuyCount(proposals) as real, Budget(c))
  {
    if proposals == [] {
      assert Times(0.0, Budget(c)) == 0.0;
    } else {
      var p := proposals[|proposals| - 1];
      var before := proposals[..|proposals| - 1];
      TotalBounded(c, before);
      assert Bounded(c, p);
      assert p.side == "buy" ==> p.notional <= Budget(c);
      hide Bounded, Budget, Times;
      OneMore(BuyCount(before), Budget(c));
    }
  }

  lemma {:induction false} OneEach(c: Context, items: seq<Item>)
    requires JudgeAll(c, items).Sized?
    ensures var r := JudgeAll(c, items); |r.proposals| + |r.warnings| == Asking(items)
  {
    if items != [] {
      var item := items[|items| - 1];
      OneEach(c, items[..|items| - 1]);
      assert Judge(c, item).Skip? <==> !(item.symbol != "" && item.side != "" && item.side != "hold");
      hide Judge;
    }
  }

  /** Over any items: every proposal is within its bounds, all buys together cost at most the budget for each, and every
      item that asks for something gives exactly one proposal or one warning. */
  lemma SizingIsBounded(c: Context, items: seq<Item>)
    requires JudgeAll(c, items).Sized?
    ensures var r := JudgeAll(c, items);
            && (forall i :: 0 <= i < |r.proposals| ==> Bounded(c, r.proposals[i]))
            && BuyTotal(r.proposals) <= Times(BuyCount(r.proposals) as real, Budget(c))
            && |r.proposals| + |r.warnings| == Asking(items)
  {
    AllBounded(c, items);
    TotalBounded(c, JudgeAll(c, items).proposals);
    OneEach(c, items);
    hide JudgeAll, Bounded, BuyTotal, BuyCount, Times, Asking, Budget;
  }

  /** What each item comes to.  A buy is proposed exactly when one lot can be afforded, a sale exactly when something is
      held; an item without a price, or with a side that is not known, only gives a warning. */
  lemma JudgedIff(c: Context, item: Item)
    requires item.symbol != "" && item.side != ""
    ensures var priced := item.symbol in c.closes && c.closes[item.symbol] > 0.0;
            var positions := PositionsBySymbol(c.rows);
            var unreadable := item.symbol in positions && positions[item.symbol].qty.None?;
            match item.side
            case "hold" => Judge(c, item).Skip?
            case "buy" =>
              if priced && Affordable(c, c.closes[item.symbol]) then Judge(c, item).Proposes?
              else Judge(c, item).Warns?
            case "sell" =>
              if priced && unreadable then Judge(c, item).Raises?
              else if priced && HeldQty(c.rows, item.symbol) > 0.0 then Judge(c, item).Proposes?
              else Judge(c, item).Warns?
            case _ => Judge(c, item).Warns?
  {
    if item.side == "buy" && item.symbol in c.closes && c.closes[item.symbol] > 0.0 {
      OneLot(Budget(c), c.closes[item.symbol]);
      BudgetIs(c, c.closes[item.symbol]);
    }
    hide WholeLots, Budget, PositionsBySymbol, Affordable, SellLots, Propose;
  }

  lemma OneLot(budget: real, close: real)
    requires close > 0.0
    ensures WholeLots(budget, close) > 0 <==> close <= budget
  {
    WholeLotsFit(budget, close);
    var n := WholeLots(budget, close);
    hide WholeLots;
    if n <= 0 {
      TimesMonotone(n as real + 1.0, 1.0, close);
    } else {
      TimesMonotone(1.0, n as real, close);
    }
    assert Times(1.0, close) == close;
  }

  /** When sizing raises: some sale names a symbol with a price whose last row has no quantity. */
  lemma {:induction false} RaisesIff(c: Context, items: seq<Item>)
    ensures JudgeAll(c, items).Raised? <==>
              exists i :: 0 <= i < |items| && items[i].side == "sell" && items[i].symbol != ""
                       && items[i].symbol in c.closes && c.closes[items[i].symbol] > 0.0
                       && items[i].symbol in PositionsBySymbol(c.rows)
                       && PositionsBySymbol(c.rows)[items[i].symbol].qty.None?
  {
    if items != [] {
      var before := items[..|items| - 1];
      RaisesIff(c, before);
      hide PositionsBySymbol, WholeLots, Propose, SellLots, Budget;
      assert forall i :: 0 <= i < |before| ==> before[i] == items[i];
    }
  }
}
