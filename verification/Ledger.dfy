/** The local ledger: fills against one account (services/api/internal/ledger/ledger.go). */
module Ledger {
  import opened Common
  import opened Sums
  import opened Risk

  datatype Fill = Fill(symbol: string, side: Side, qty: real, price: real, stop: Option<real>, take: Option<real>)

  /** `finite` is lost once the average cost was divided by a zero quantity: it is an infinity or not a number from then
      on, and `avgCost` means nothing. */
  datatype Position = Position(qty: real, avgCost: real, finite: bool, stop: Option<real>, take: Option<real>)

  /** One recorded order; it does not carry the stop and take levels. */
  datatype Filled = Filled(symbol: string, side: Side, qty: real, price: real, notional: real)

  datatype Refusal = InsufficientCash | InsufficientQty | InvalidSide

  datatype Book = Book(cash: real, positions: map<string, Position>, orders: seq<Filled>)

  /** What a fill comes to: the book afterwards, and why it was refused if it was. */
  datatype Applied = Applied(book: Book, refusal: Option<Refusal>)

  predicate Positive(f: Fill) {
    f.qty > 0.0 && f.price > 0.0
  }

  function Quotient(a: real, b: real): real {
    if b == 0.0 then 0.0 else a / b
  }

  function Bought(b: Book, f: Fill): Position {
    if f.symbol !in b.positions then Position(f.qty, f.price, true, f.stop, f.take)
    else
      var p := b.positions[f.symbol];
      Position(p.qty + f.qty,
               Quotient(Worth(p.qty, p.avgCost) + Worth(f.qty, f.price), p.qty + f.qty),
               p.finite && p.qty + f.qty != 0.0,
               if f.stop.Some? then f.stop else p.stop,
               if f.take.Some? then f.take else p.take)
  }

  function RecordOf(f: Fill): Filled {
    Filled(f.symbol, f.side, f.qty, f.price, Worth(f.qty, f.price))
  }

  function Sold(b: Book, f: Fill): map<string, Position>
    requires f.symbol in b.positions
  {
    var p := b.positions[f.symbol];
    if p.qty - f.qty == 0.0 then b.positions - {f.symbol} else b.positions[f.symbol := p.(qty := p.qty - f.qty)]
  }

  function Refusing(b: Book, f: Fill): Option<Refusal> {
    match f.side
    case Buy => if b.cash < Worth(f.qty, f.price) then Some(InsufficientCash) else None
    case Sell => if f.symbol !in b.positions || b.positions[f.symbol].qty < f.qty then Some(InsufficientQty) else None
    case Other(_) => Some(InvalidSide)
  }

  function ApplyTo(b: Book, f: Fill): Applied {
    var refusal := Refusing(b, f);
    if refusal.Some? then Applied(b, refusal)
    else if f.side.Buy? then
      var positions := b.positions[f.symbol := Bought(b, f)];
      Applied(Book(b.cash - Worth(f.qty, f.price), positions, b.orders + [RecordOf(f)]), None)
    else
      Applied(Book(b.cash + Worth(f.qty, f.price), Sold(b, f), b.orders + [RecordOf(f)]), None)
  }

  /** What is held of a symbol. */
  function QtyHeld(b: Book, symbol: string): real {
    if symbol in b.positions then b.positions[symbol].qty else 0.0
  }

  /** A buy is refused exactly when cash is short. It pays quantity times price, the position grows by the quantity,
      what it cost grows by what was paid, and its levels change only where the fill gives new ones. */
  lemma BuyFollows(b: Book, f: Fill)
    requires f.side == Buy
    ensures ApplyTo(b, f).refusal == if f.qty * f.price > b.cash then Some(InsufficientCash) else None
    ensures ApplyTo(b, f).refusal.None? ==>
              var after := ApplyTo(b, f).book;
              && after.cash == b.cash - f.qty * f.price
              && after.orders == b.orders + [Filled(f.symbol, f.side, f.qty, f.price, f.qty * f.price)]
              && f.symbol in after.positions && after.positions - {f.symbol} == b.positions - {f.symbol}
              && var p := after.positions[f.symbol];
                 && p.qty == QtyHeld(b, f.symbol) + f.qty
                 && (if f.symbol in b.positions then
                       var was := b.positions[f.symbol];
                       && (p.finite <==> was.finite && p.qty != 0.0)
                       && (p.finite ==> Worth(p.qty, p.avgCost) == Worth(was.qty, was.avgCost) + f.qty * f.price)
                       && p.stop == (if f.stop.None? then was.stop else f.stop)
                       && p.take == (if f.take.None? then was.take else f.take)
                     else p.avgCost == f.price && p.finite && p.stop == f.stop && p.take == f.take)
  {
    if f.symbol in b.positions && QtyHeld(b, f.symbol) + f.qty != 0.0 {
      QuotientWorth(Worth(b.positions[f.symbol].qty, b.positions[f.symbol].avgCost) + Worth(f.qty, f.price),
                    QtyHeld(b, f.symbol) + f.qty);
    }
    assert Worth(f.qty, f.price) == f.qty * f.price;
    hide Worth, Quotient;
  }

  /** A sale is refused exactly when less is held.  It is paid quantity times price, and the position shrinks by the
      quantity and is gone when nothing is left; its average cost and levels stay. */
  lemma SaleFollows(b: Book, f: Fill)
    requires f.side == Sell
    ensures ApplyTo(b, f).refusal ==
            if f.symbol in b.positions && b.positions[f.symbol].qty >= f.qty then None else Some(InsufficientQty)
    ensures ApplyTo(b, f).refusal.None? ==>
              var after := ApplyTo(b, f).book;
              && after.cash == b.cash + f.qty * f.price
              && after.orders == b.orders + [Filled(f.symbol, f.side, f.qty, f.price, f.qty * f.price)]
              && after.positions - {f.symbol} == b.positions - {f.symbol}
              && (f.symbol in after.positions <==> b.positions[f.symbol].qty != f.qty)
              && (f.symbol in after.positions ==>
                    after.positions[f.symbol] == b.positions[f.symbol].(qty := b.positions[f.symbol].qty - f.qty))
  {
    assert Worth(f.qty, f.price) == f.qty * f.price;
    hide Worth;
  }

  /* ------------------------------------------------------------------ the ledger itself */

  datatype Nav = Nav(id: nat, cash: real, equity: real, nav: real)

  function MarkedValues(positions: map<string, Position>, marks: map<string, real>): map<string, real>
    requires positions.Keys <= marks.Keys
  {
    map s | s in positions :: Worth(positions[s].qty, marks[s])
  }

  class Service {
    var cash: real
    var positions: map<string, Position>
    var orders: seq<Filled>
    /** One NAV row for each trade date. */
    var navs: map<string, Nav>
    var nextId: nat

    function Contents(): Book
      reads this
    {
      Book(cash, positions, orders)
    }

    constructor (cash: real)
      ensures Contents() == Book(cash, map[], []) && navs == map[]
    {
      this.cash, positions, orders, navs, nextId := cash, map[], [], map[], 1;
    }

    method ApplyBuy(f: Fill) returns (refusal: Option<Refusal>)
      requires f.side.Buy?
      modifies this`cash, this`positions
      ensures refusal == Refusing(old(Contents()), f)
      ensures refusal.Some? ==> Contents() == old(Contents())
      ensures refusal.None? ==> Contents().(orders := old(orders) + [RecordOf(f)]) == ApplyTo(old(Contents()), f).book
    {
      hide Worth, Quotient;
      if cash < Worth(f.qty, f.price) {
        return Some(InsufficientCash);
      }
      cash := cash - Worth(f.qty, f.price);
      if f.symbol !in positions {
        positions := positions[f.symbol := Position(f.qty, f.price, true, f.stop, f.take)];
      } else {
        var p := positions[f.symbol];
        var totalCost := Worth(p.qty, p.avgCost) + Worth(f.qty, f.price);
        p := p.(qty := p.qty + f.qty);
        p := p.(avgCost := Quotient(totalCost, p.qty), finite := p.finite && p.qty != 0.0);
        if f.stop.Some? {
          p := p.(stop := f.stop);
        }
        if f.take.Some? {
          p := p.(take := f.take);
        }
        positions := positions[f.symbol := p];
      }
      refusal := None;
    }

    method ApplySell(f: Fill) returns (refusal: Option<Refusal>)
      requires f.side.Sell?
      modifies this`cash, this`positions
      ensures refusal == Refusing(old(Contents()), f)
      ensures refusal.Some? ==> Contents() == old(Contents())
      ensures refusal.None? ==> Contents().(orders := old(orders) + [RecordOf(f)]) == ApplyTo(old(Contents()), f).book
    {
      hide Worth;
      if f.symbol !in positions {
        return Some(InsufficientQty);
      }
      var p := positions[f.symbol];
      if p.qty < f.qty {
        return Some(InsufficientQty);
      }
      cash := cash + Worth(f.qty, f.price);
      p := p.(qty := p.qty - f.qty);
      if p.qty == 0.0 {
        positions := positions - {f.symbol};
      } else {
        positions := positions[f.symbol := p];
      }
      refusal := None;
    }

    /** Applies a fill; a refused one changes nothing. */
    method ApplyFill(f: Fill) returns (refusal: Option<Refusal>)
      modifies this`cash, this`positions, this`orders
      ensures Applied(Contents(), refusal) == ApplyTo(old(Contents()), f)
      ensures refusal.Some? ==> Contents() == old(Contents())
    {
      hide Worth, Bought, Sold;
      match f.side {
        case Buy => refusal := ApplyBuy(f);
        case Sell => refusal := ApplySell(f);
        case Other(_) => return Some(InvalidSide);
      }
      if refusal.None? {
        orders := orders + [RecordOf(f)];
      }
    }

    /** Values the book at the marks and writes the date's row: a new one, or over the date's old one under its id. */
    method UpsertNav(date: string, marks: map<string, real>) returns (row: Option<Nav>)
      modifies this`navs, this`nextId
      ensures row.None? <==> exists s :: s in positions && s !in marks
      ensures row.None? ==> navs == old(navs) && nextId == old(nextId)
      ensures row.Some? ==>
                && navs == old(navs)[date := row.value]
                && row.value.cash == cash
                && row.value.equity == Sum(MarkedValues(positions, marks))
                && row.value.nav == cash + row.value.equity
                && row.value.id == if date in old(navs) then old(navs[date].id) else old(nextId)
    {
      hide Worth;
      var equity := 0.0;
      var left := positions.Keys;
      ghost var all := map s | s in positions :: if s in marks then Worth(positions[s].qty, marks[s]) else 0.0;
      assert all - left == map[] && Sum(map[]) == 0.0;
      hide Sum;
      while left != {}
        invariant left <= positions.Keys
        invariant forall s :: s in positions && s !in left ==> s in marks
        invariant equity == Sum(all - left)
        invariant navs == old(navs) && nextId == old(nextId)
        decreases |left|
      {
        var s :| s in left;
        if s !in marks {
          return None;
        }
        VisitKey(all, left, s);
        equity := equity + Worth(positions[s].qty, marks[s]);
        left := left - {s};
      }
      assert all - {} == all;
      assert all == MarkedValues(positions, marks);
      var id := nextId;
      if date in navs {
        id := navs[date].id;
      } else {
        nextId := nextId + 1;
      }
      row := Some(Nav(id, cash, equity, cash + equity));
      navs := navs[date := row.value];
    }
  }

  /* ------------------------------------------------------------------ any sequence of fills */

  /** Cash is not negative, every stored quantity is positive and every average cost a number. */
  predicate Solvent(b: Book) {
    b.cash >= 0.0 && forall s :: s in b.positions ==> b.positions[s].qty > 0.0 && b.positions[s].finite
  }

  predicate AllPositive(fills: seq<Fill>) {
    forall i :: 0 <= i < |fills| ==> Positive(fills[i])
  }

  lemma WorthNonNegative(qty: real, price: real)
    requires qty >= 0.0 && price >= 0.0
    ensures Worth(qty, price) >= 0.0
  {
  }

  lemma FillKeepsSolvent(b: Book, f: Fill)
    requires Solvent(b) && Positive(f)
    ensures Solvent(ApplyTo(b, f).book)
  {
    WorthNonNegative(f.qty, f.price);
    hide Worth, Quotient;
  }

  function Run(b: Book, fills: seq<Fill>): Book
    requires Solvent(b) && AllPositive(fills)
    decreases |fills|
  {
    if fills == [] then b
    else
      FillKeepsSolvent(b, fills[0]);
      Run(ApplyTo(b, fills[0]).book, fills[1..])
  }

  lemma {:induction false} RunKeepsSolvent(b: Book, fills: seq<Fill>)
    requires Solvent(b) && AllPositive(fills)
    ensures Solvent(Run(b, fills))
    decreases |fills|
  {
    if fills != [] {
      FillKeepsSolvent(b, fills[0]);
      RunKeepsSolvent(ApplyTo(b, fills[0]).book, fills[1..]);
    }
  }

  /* ------------------------------------------------------------------ replaying the order log */

  datatype Holding = Holding(qty: real, avgCost: real)

  /** The part of a book that its orders determine. */
  datatype Replayed = Replayed(cash: real, holdings: map<string, Holding>)

  function Projected(b: Book): Replayed {
    Replayed(b.cash, map s | s in b.positions :: Holding(b.positions[s].qty, b.positions[s].avgCost))
  }

  function NewQty(r: Replayed, o: Filled): real {
    (if o.symbol in r.holdings then r.holdings[o.symbol].qty else 0.0) + (if o.side.Buy? then o.qty else -o.qty)
  }

  /** One recorded order, with no check of cash or quantity.  Buying moves the average, selling leaves it. */
  function ReplayOne(r: Replayed, o: Filled): Replayed {
    var qty := NewQty(r, o);
    var avg := if o.symbol in r.holdings then r.holdings[o.symbol].avgCost else o.price;
    if o.side.Buy? then
      var held := if o.symbol in r.holdings then r.holdings[o.symbol].qty else 0.0;
      Replayed(r.cash - o.notional,
               r.holdings[o.symbol := Holding(qty, if qty == 0.0 || o.symbol !in r.holdings then avg
                                                   else Quotient(Worth(held, avg) + o.notional, qty))])
    else
      Replayed(r.cash + o.notional,
               if qty == 0.0 then r.holdings - {o.symbol} else r.holdings[o.symbol := Holding(qty, avg)])
  }

  function Replay(r: Replayed, orders: seq<Filled>): Replayed {
    if orders == [] then r else ReplayOne(Replay(r, orders[..|orders| - 1]), orders[|orders| - 1])
  }

  lemma FillReplays(b: Book, f: Fill)
    requires Solvent(b) && Positive(f)
    ensures var a := ApplyTo(b, f);
            && (a.refusal.None? ==>
                  && a.book.orders == b.orders + [RecordOf(f)]
                  && Projected(a.book) == ReplayOne(Projected(b), RecordOf(f)))
            && (a.refusal.Some? ==> a.book == b)
  {
    hide Worth, Quotient;
    var a := ApplyTo(b, f);
    if a.refusal.None? {
      assert Projected(a.book).holdings == ReplayOne(Projected(b), RecordOf(f)).holdings;
    }
  }

  /** Replaying the recorded orders over the opening state rebuilds cash and every position. */
  lemma {:induction false} RunReplays(opening: Book, b: Book, fills: seq<Fill>)
    requires Solvent(b) && AllPositive(fills)
    requires opening.orders <= b.orders && Projected(b) == Replay(Projected(opening), b.orders[|opening.orders|..])
    ensures var last := Run(b, fills);
            && opening.orders <= last.orders
            && Projected(last) == Replay(Projected(opening), last.orders[|opening.orders|..])
    decreases |fills|
  {
    if fills != [] {
      var f := fills[0];
      FillKeepsSolvent(b, f);
      FillReplays(b, f);
      var next := ApplyTo(b, f).book;
      hide ApplyTo, ReplayOne, Projected, Solvent, Positive;
      if next != b {
        assert next.orders[|opening.orders|..] == b.orders[|opening.orders|..] + [RecordOf(f)];
        assert next.orders[|opening.orders|..][..|b.orders| - |opening.orders|] == b.orders[|opening.orders|..];
      }
      RunReplays(opening, next, fills[1..]);
    }
  }

  function NetCash(orders: seq<Filled>): real {
    if orders == [] then 0.0
    else
      var o := orders[|orders| - 1];
      NetCash(orders[..|orders| - 1]) + (if o.side.Buy? then -o.notional else o.notional)
  }

  function NetQty(orders: seq<Filled>, s: string): real {
    if orders == [] then 0.0
    else
      var o := orders[|orders| - 1];
      NetQty(orders[..|orders| - 1], s) + (if o.symbol != s then 0.0 else if o.side.Buy? then o.qty else -o.qty)
  }

  function Held(r: Replayed, s: string): real {
    if s in r.holdings then r.holdings[s].qty else 0.0
  }

  /** A replay is a sum: cash moves by the signed notionals, each symbol by its signed quantities. */
  lemma {:induction false} ReplayIsSum(r: Replayed, orders: seq<Filled>, s: string)
    ensures Replay(r, orders).cash == r.cash + NetCash(orders)
    ensures Held(Replay(r, orders), s) == Held(r, s) + NetQty(orders, s)
  {
    if orders != [] {
      ReplayIsSum(r, orders[..|orders| - 1], s);
      hide Worth, Quotient;
    }
  }

  /* ------------------------------------------------------------------ cost accounting */

  function Costs(positions: map<string, Position>): map<string, real> {
    map s | s in positions :: Worth(positions[s].qty, positions[s].avgCost)
  }

  /** Cash plus positions at cost. */
  ghost function BookValue(b: Book): real {
    b.cash + Sum(Costs(b.positions))
  }

  /** What a fill realises: an accepted sale realises its price over the average cost. */
  function Gain(b: Book, f: Fill): real {
    if Refusing(b, f).None? && f.side.Sell? then Worth(f.qty, f.price - b.positions[f.symbol].avgCost) else 0.0
  }

  function Realised(b: Book, fills: seq<Fill>): real
    requires Solvent(b) && AllPositive(fills)
    decreases |fills|
  {
    if fills == [] then 0.0
    else
      FillKeepsSolvent(b, fills[0]);
      Gain(b, fills[0]) + Realised(ApplyTo(b, fills[0]).book, fills[1..])
  }

  lemma QuotientWorth(cost: real, qty: real)
    requires qty != 0.0
    ensures Worth(qty, Quotient(cost, qty)) == cost
  {
  }

  lemma WorthOfGain(qty: real, price: real, avg: real)
    ensures Worth(qty, price - avg) == Worth(qty, price) - Worth(qty, avg)
  {
  }

  lemma BuyKeepsValue(b: Book, f: Fill)
    requires Solvent(b) && Positive(f) && f.side.Buy? && Refusing(b, f).None?
    ensures BookValue(ApplyTo(b, f).book) == BookValue(b)
  {
    var p := Bought(b, f);
    if f.symbol in b.positions {
      QuotientWorth(Worth(b.positions[f.symbol].qty, b.positions[f.symbol].avgCost) + Worth(f.qty, f.price), p.qty);
    }
    hide Worth, Quotient, Sum;
    var before, after := Costs(b.positions), Costs(ApplyTo(b, f).book.positions);
    assert after == before[f.symbol := Worth(p.qty, p.avgCost)];
    SumUpdate(before, f.symbol, Worth(p.qty, p.avgCost));
  }

  lemma SaleRealises(b: Book, f: Fill)
    requires Solvent(b) && Positive(f) && f.side.Sell? && Refusing(b, f).None?
    ensures BookValue(ApplyTo(b, f).book) == BookValue(b) + Gain(b, f)
  {
    var p := b.positions[f.symbol];
    WorthOfGain(f.qty, f.price, p.avgCost);
    WorthDifference(p.qty, p.qty - f.qty, p.avgCost);
    assert Worth(0.0, p.avgCost) == 0.0;
    hide Worth, Sum;
    var before, after := Costs(b.positions), Costs(ApplyTo(b, f).book.positions);
    if p.qty - f.qty == 0.0 {
      assert after == before - {f.symbol};
      SumRemove(before, f.symbol);
    } else {
      assert after == before[f.symbol := Worth(p.qty - f.qty, p.avgCost)];
      SumUpdate(before, f.symbol, Worth(p.qty - f.qty, p.avgCost));
    }
  }

  /** Cash plus positions at cost changes by realised gains and nothing else. */
  lemma {:induction false} ValueIsRealised(b: Book, fills: seq<Fill>)
    requires Solvent(b) && AllPositive(fills)
    ensures BookValue(Run(b, fills)) == BookValue(b) + Realised(b, fills)
    decreases |fills|
  {
    if fills != [] {
      var f := fills[0];
      FillKeepsSolvent(b, f);
      if Refusing(b, f).None? {
        if f.side.Buy? {
          BuyKeepsValue(b, f);
        } else {
          SaleRealises(b, f);
        }
      }
      hide BookValue, Worth, Quotient, Solvent;
      ValueIsRealised(ApplyTo(b, f).book, fills[1..]);
    }
  }

  /* ------------------------------------------------------------------ average cost */

  /** The prices paid for a symbol since its position was opened. */
  datatype Lot = Lot(qty: real, prices: seq<real>)

  function OpeningLot(r: Replayed, s: string): Lot {
    if s in r.holdings then Lot(r.holdings[s].qty, [r.holdings[s].avgCost]) else Lot(0.0, [])
  }

  /** Follows the orders of one symbol: a purchase adds its price, selling out forgets them all. */
  function LotAfter(start: Lot, orders: seq<Filled>, s: string): Lot {
    if orders == [] then start
    else
      var lot := LotAfter(start, orders[..|orders| - 1], s);
      var o := orders[|orders| - 1];
      if o.symbol != s then lot
      else if o.side.Buy? then Lot(lot.qty + o.qty, lot.prices + [o.price])
      else if lot.qty - o.qty == 0.0 then Lot(0.0, [])
      else lot.(qty := lot.qty - o.qty)
  }

  predicate Between(x: real, prices: seq<real>) {
    exists i, j :: 0 <= i < |prices| && 0 <= j < |prices| && prices[i] <= x <= prices[j]
  }

  lemma AverageBetween(q: real, avg: real, n: real, price: real)
    requires q > 0.0 && n > 0.0
    ensures var mean := Quotient(Worth(q, avg) + Worth(n, price), q + n);
            (avg <= mean <= price) || (price <= mean <= avg)
  {
    var mean := Quotient(Worth(q, avg) + Worth(n, price), q + n);
    QuotientWorth(Worth(q, avg) + Worth(n, price), q + n);
    assert Worth(q + n, mean) == Worth(q, mean) + Worth(n, mean) by { WorthDifference(q + n, n, mean); }
    WorthOfGain(q, mean, avg);
    WorthOfGain(n, mean, price);
    assert Worth(q, mean - avg) + Worth(n, mean - price) == 0.0;
    SignOfWorth(q, mean - avg);
    SignOfWorth(n, mean - price);
    hide Worth, Quotient;
  }

  lemma SignOfWorth(q: real, x: real)
    requires q > 0.0
    ensures Worth(q, x) > 0.0 <==> x > 0.0
    ensures Worth(q, x) < 0.0 <==> x < 0.0
  {
  }

  lemma BetweenMore(avg: real, mean: real, price: real, prices: seq<real>)
    requires Between(avg, prices) && ((avg <= mean <= price) || (price <= mean <= avg))
    ensures Between(mean, prices + [price])
  {
    var all := prices + [price];
    var i, j :| 0 <= i < |prices| && 0 <= j < |prices| && prices[i] <= avg <= prices[j];
    assert all[i] == prices[i] && all[j] == prices[j] && all[|prices|] == price;
  }

  /** The lots agree with the book: same quantities, and each average cost lies between prices paid. */
  predicate LotsAgree(r: Replayed, start: Replayed, orders: seq<Filled>, s: string) {
    var lot := LotAfter(OpeningLot(start, s), orders, s);
    && lot.qty == Held(r, s)
    && (s in r.holdings ==> r.holdings[s].qty > 0.0 && Between(r.holdings[s].avgCost, lot.prices))
    && (s !in r.holdings ==> lot.prices == [])
  }

  predicate Sells(r: Replayed, o: Filled) {
    && o.qty > 0.0 && o.price > 0.0 && o.notional == Worth(o.qty, o.price)
    && (o.side.Buy? || (o.symbol in r.holdings && r.holdings[o.symbol].qty >= o.qty))
  }

  lemma LotsFollow(r: Replayed, start: Replayed, orders: seq<Filled>, o: Filled, s: string)
    requires LotsAgree(r, start, orders, s) && Sells(r, o)
    ensures LotsAgree(ReplayOne(r, o), start, orders + [o], s)
  {
    assert (orders + [o])[..|orders|] == orders;
    var lot := LotAfter(OpeningLot(start, s), orders, s);
    if o.symbol == s && o.side.Buy? {
      if s in r.holdings {
        var avg, q := r.holdings[s].avgCost, r.holdings[s].qty;
        AverageBetween(q, avg, o.qty, o.price);
        BetweenMore(avg, Quotient(Worth(q, avg) + Worth(o.qty, o.price), q + o.qty), o.price, lot.prices);
      } else {
        assert (lot.prices + [o.price])[0] == o.price;
        assert Between(o.price, lot.prices + [o.price]);
      }
    }
    hide Worth, Quotient, Between;
  }

  /** The orders recorded since the opening. */
  function Since(opening: Book, b: Book): seq<Filled>
    requires opening.orders <= b.orders
  {
    b.orders[|opening.orders|..]
  }

  lemma FillFollowsLots(opening: Book, b: Book, f: Fill, s: string)
    requires Solvent(b) && Positive(f) && opening.orders <= b.orders
    requires LotsAgree(Projected(b), Projected(opening), Since(opening, b), s)
    ensures var next := ApplyTo(b, f).book;
            opening.orders <= next.orders && LotsAgree(Projected(next), Projected(opening), Since(opening, next), s)
  {
    FillReplays(b, f);
    if Refusing(b, f).None? {
      assert Sells(Projected(b), RecordOf(f));
      var next := ApplyTo(b, f).book;
      hide ReplayOne, Projected, Solvent, LotsAgree, Worth, Quotient, Sells, RecordOf;
      assert Since(opening, next) == Since(opening, b) + [RecordOf(f)];
      LotsFollow(Projected(b), Projected(opening), Since(opening, b), RecordOf(f), s);
    }
  }

  lemma {:induction false} RunFollowsLots(opening: Book, b: Book, fills: seq<Fill>, s: string)
    requires Solvent(b) && AllPositive(fills) && opening.orders <= b.orders
    requires LotsAgree(Projected(b), Projected(opening), Since(opening, b), s)
    ensures var last := Run(b, fills);
            opening.orders <= last.orders && LotsAgree(Projected(last), Projected(opening), Since(opening, last), s)
    decreases |fills|
  {
    if fills != [] {
      FillKeepsSolvent(b, fills[0]);
      hide ApplyTo, Projected, Solvent, LotsAgree, Since, Positive;
      FillFollowsLots(opening, b, fills[0], s);
      RunFollowsLots(opening, ApplyTo(b, fills[0]).book, fills[1..], s);
    }
  }

  lemma OpeningLots(opening: Book, s: string)
    requires Solvent(opening)
    ensures LotsAgree(Projected(opening), Projected(opening), [], s)
  {
    if s in opening.positions {
      assert [opening.positions[s].avgCost][0] == opening.positions[s].avgCost;
      assert Between(opening.positions[s].avgCost, [opening.positions[s].avgCost]);
    }
  }

  /** For any fills with positive quantity and price, from any solvent opening state: the book is the replay of the
      orders recorded since, cash and quantities are the opening ones plus signed sums over those orders, cash stays
      non-negative and stored quantities positive, value at cost moves by realised gains alone, and each average cost
      lies between prices paid since the position was opened. */
  lemma LedgerAccounts(opening: Book, fills: seq<Fill>, s: string)
    requires Solvent(opening) && AllPositive(fills)
    ensures var b := Run(opening, fills);
            && Solvent(b)
            && opening.orders <= b.orders
            && var since := b.orders[|opening.orders|..];
               && Projected(b) == Replay(Projected(opening), since)
               && b.cash == opening.cash + NetCash(since)
               && Held(Projected(b), s) == Held(Projected(opening), s) + NetQty(since, s)
               && BookValue(b) == BookValue(opening) + Realised(opening, fills)
               && (s in b.positions ==>
                     Between(b.positions[s].avgCost, LotAfter(OpeningLot(Projected(opening), s), since, s).prices))
  {
    var b := Run(opening, fills);
    RunKeepsSolvent(opening, fills);
    assert opening.orders[|opening.orders|..] == [];
    RunReplays(opening, opening, fills);
    ReplayIsSum(Projected(opening), b.orders[|opening.orders|..], s);
    ValueIsRealised(opening, fills);
    OpeningLots(opening, s);
    RunFollowsLots(opening, opening, fills, s);
    hide Run, Replay, NetCash, NetQty, BookValue, Realised, LotAfter, Between, Solvent;
  }
}
