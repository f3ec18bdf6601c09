/** What price an order is judged at. */
module Marks {
  import opened Common
  import opened Risk
  import opened Gate
  import opened Workflow

  /** The proposal carries its own price. */
  predicate PricesItself(d: Draft, symbol: string) {
    d.symbol == symbol && d.qty > 0.0 && d.estimatedNotional > 0.0
  }

  /** The first proposal of the symbol that carries its own price. */
  ghost predicate FirstPriced(drafts: seq<Draft>, symbol: string, i: int) {
    && 0 <= i < |drafts| && PricesItself(drafts[i], symbol)
    && forall j :: 0 <= j < i ==> !PricesItself(drafts[j], symbol)
  }

  ghost predicate IsPriced(drafts: seq<Draft>, symbol: string) {
    exists i :: FirstPriced(drafts, symbol, i)
  }

  /** What a symbol is valued at: the broker's price; without one, the price at which the first proposal of the symbol
      that carries one comes to its own estimate; otherwise nothing. */
  ghost predicate MarkIs(broker: map<string, real>, drafts: seq<Draft>, marks: map<string, real>, symbol: string) {
    if symbol in broker then symbol in marks && marks[symbol] == broker[symbol]
    else
      && (symbol in marks <==> IsPriced(drafts, symbol))
      && (symbol in marks ==>
            forall i :: FirstPriced(drafts, symbol, i) ==> marks[symbol] * drafts[i].qty == drafts[i].estimatedNotional)
  }

  ghost predicate MarksAre(broker: map<string, real>, drafts: seq<Draft>, marks: map<string, real>) {
    forall symbol :: MarkIs(broker, drafts, marks, symbol)
  }

  /** If some proposal carries its own price, one is the first. */
  lemma {:induction false} SomeFirst(drafts: seq<Draft>, symbol: string)
    ensures (exists i :: 0 <= i < |drafts| && PricesItself(drafts[i], symbol)) <==> IsPriced(drafts, symbol)
  {
    if drafts != [] {
      var n := |drafts| - 1;
      var before := drafts[..n];
      SomeFirst(before, symbol);
      if i :| FirstPriced(before, symbol, i) {
        assert FirstPriced(drafts, symbol, i);
      } else if PricesItself(drafts[n], symbol) {
        assert forall j :: 0 <= j < n ==> before[j] == drafts[j];
        assert FirstPriced(drafts, symbol, n);
      }
    }
  }

  lemma FirstNext(drafts: seq<Draft>, n: nat, symbol: string, i: int)
    requires n < |drafts|
    ensures FirstPriced(drafts[..n + 1], symbol, i) <==>
              || FirstPriced(drafts[..n], symbol, i)
              || (i == n && PricesItself(drafts[n], symbol) && !IsPriced(drafts[..n], symbol))
  {
    SomeFirst(drafts[..n], symbol);
    var now, next := drafts[..n], drafts[..n + 1];
    assert forall j :: 0 <= j < n ==> now[j] == next[j] == drafts[j];
  }

  lemma OneEstimate(d: Draft)
    requires d.qty > 0.0
    ensures d.estimatedNotional / d.qty * d.qty == d.estimatedNotional
  {
  }

  lemma MarkNext(broker: map<string, real>, drafts: seq<Draft>, n: nat, before: map<string, real>, symbol: string)
    requires n < |drafts| && MarkIs(broker, drafts[..n], before, symbol)
    ensures MarkIs(broker, drafts[..n + 1], Completed(before, drafts[n]), symbol)
  {
    var d, now, next, after := drafts[n], drafts[..n], drafts[..n + 1], Completed(before, drafts[n]);
    if d.qty > 0.0 {
      OneEstimate(d);
    }
    assert symbol != d.symbol ==>
             (symbol in after <==> symbol in before) && (symbol in before ==> after[symbol] == before[symbol]);
    forall i ensures FirstPriced(next, symbol, i) <==>
                       FirstPriced(now, symbol, i) || (i == n && PricesItself(d, symbol) && !IsPriced(now, symbol))
    {
      FirstNext(drafts, n, symbol, i);
    }
    assert FirstPriced(next, symbol, n) || !FirstPriced(next, symbol, n);
    assert forall i :: FirstPriced(now, symbol, i) ==> now[i] == drafts[i];
    hide FirstPriced;
  }

  lemma {:induction false} EstimatesFrom(broker: map<string, real>, drafts: seq<Draft>, n: nat, before: map<string,
        real>)
    requires n <= |drafts| && MarksAre(broker, drafts[..n], before)
    ensures MarksAre(broker, drafts, AddEstimates(before, drafts[n..]))
    decreases |drafts| - n
  {
    if n == |drafts| {
      assert drafts[..n] == drafts && drafts[n..] == [];
      hide MarksAre;
    } else {
      var d := drafts[n];
      var after := Completed(before, d);
      assert drafts[n..][0] == d && drafts[n..][1..] == drafts[n + 1..];
      var now := drafts[..n + 1];
      forall symbol ensures MarkIs(broker, now, after, symbol) {
        assert MarkIs(broker, drafts[..n], before, symbol);
        MarkNext(broker, drafts, n, before, symbol);
      }
      hide MarkIs;
      EstimatesFrom(broker, drafts, n + 1, after);
    }
  }

  /** Completing the broker's prices by the proposals' own values every symbol as it should be. */
  lemma MarksAreCompleted(broker: map<string, real>, drafts: seq<Draft>)
    ensures MarksAre(broker, drafts, AddEstimates(broker, drafts))
  {
    assert drafts[..0] == [] && drafts[0..] == drafts;
    assert forall symbol, i :: !FirstPriced([], symbol, i);
    hide AddEstimates;
    EstimatesFrom(broker, drafts, 0, broker);
  }

  /** There is only one way to value a symbol. */
  lemma MarksAreUnique(broker: map<string, real>, drafts: seq<Draft>, a: map<string, real>, b: map<string, real>)
    requires MarksAre(broker, drafts, a) && MarksAre(broker, drafts, b)
    ensures a == b
  {
    forall symbol ensures (symbol in a <==> symbol in b) && (symbol in a ==> a[symbol] == b[symbol]) {
      assert MarkIs(broker, drafts, a, symbol) && MarkIs(broker, drafts, b, symbol);
      if symbol in a && symbol !in broker {
        var i :| FirstPriced(drafts, symbol, i);
        SamePrice(a[symbol], b[symbol], drafts[i].qty);
      }
    }
  }

  lemma SamePrice(a: real, b: real, qty: real)
    requires qty > 0.0 && a * qty == b * qty
    ensures a == b
  {
    assert (a - b) * qty == 0.0;
  }
}
