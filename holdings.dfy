/**
 * The transaction ledger and what `calculate_portfolio_stats` builds from it
 * in its first loop: one holding per symbol (net quantity, net invested
 * amount, name and type of the first trade) and one signed cash flow per
 * transaction. Also the per-holding cash-flow series that the holdings and
 * performance pages rebuild from the same ledger with the same sign rule.
 */
module Holdings {
  import opened Options
  import opened Xirr

  datatype Action = Buy | Sell

  /** One ledger row; `date` is a day number, `price` the transaction price. */
  datatype Transaction = Transaction(symbol: string, name: string, kind: string, action: Action,
                                     date: int, quantity: int, price: real)

  /** What a holding is worth at the current price; only holdings with a
      positive quantity carry one. */
  datatype Valuation = Valuation(currentPrice: real, currentValue: real, gainLoss: real, gainLossPct: real)

  /** A holding: net quantity, net invested amount, the name and type of its
      first trade, and its valuation once the portfolio has been valued. */
  datatype Holding = Holding(quantity: int, invested: real, name: string, kind: string,
                             valuation: Option<Valuation>)

  /** `quantity * transaction_price`. */
  function Cost(tx: Transaction): real {
    tx.quantity as real * tx.price
  }

  /** The sign rule: a purchase is money paid in (negative), a sale money
      coming back (positive). */
  function FlowOf(tx: Transaction): CashFlow {
    CashFlow(tx.date, if tx.action == Buy then -Cost(tx) else Cost(tx))
  }

  /** For a trade of positive quantity and price, the flow is negative exactly
      when it is a purchase. */
  lemma FlowSign(tx: Transaction)
    requires tx.quantity > 0 && tx.price > 0.0
    ensures FlowOf(tx).date == tx.date
    ensures FlowOf(tx).amount < 0.0 <==> tx.action == Buy
    ensures FlowOf(tx).amount == Cost(tx) || FlowOf(tx).amount == -Cost(tx)
  {
  }

  /** The cash flows of the ledger, in ledger order. */
  function LedgerFlows(l: seq<Transaction>): seq<CashFlow> {
    if l == [] then [] else LedgerFlows(l[..|l| - 1]) + [FlowOf(l[|l| - 1])]
  }

  function Total(flows: seq<CashFlow>): real {
    if flows == [] then 0.0 else Total(flows[..|flows| - 1]) + flows[|flows| - 1].amount
  }

  /** One entry per transaction, in ledger order, each by the sign rule. */
  lemma {:induction false} LedgerFlowsPointwise(l: seq<Transaction>)
    ensures |LedgerFlows(l)| == |l|
    ensures forall i :: 0 <= i < |l| ==> LedgerFlows(l)[i] == FlowOf(l[i])
  {
    if l != [] {
      LedgerFlowsPointwise(l[..|l| - 1]);
    }
  }

  // ---------------------------------------------------------------------
  // Holdings
  // ---------------------------------------------------------------------

  /** The holding created on the first trade of a symbol. */
  function Opened(tx: Transaction): Holding {
    Holding(0, 0.0, tx.name, tx.kind, None)
  }

  /** A trade applied to its holding: a purchase adds its quantity and cost,
      a sale subtracts them. */
  function Record(h: Holding, tx: Transaction): Holding {
    if tx.action == Buy then h.(quantity := h.quantity + tx.quantity, invested := h.invested + Cost(tx))
    else h.(quantity := h.quantity - tx.quantity, invested := h.invested - Cost(tx))
  }

  /** The holdings after the ledger has been applied in order. */
  function Positions(l: seq<Transaction>): (m: map<string, Holding>)
    ensures forall s :: s in m ==> m[s].valuation == None
  {
    if l == [] then map[]
    else
      var m := Positions(l[..|l| - 1]);
      var tx := l[|l| - 1];
      var h := if tx.symbol in m then m[tx.symbol] else Opened(tx);
      m[tx.symbol := Record(h, tx)]
  }

  /** The symbols in the order their holdings were created (the key order of
      the Python dict). */
  function Symbols(l: seq<Transaction>): seq<string> {
    if l == [] then []
    else
      var tx := l[|l| - 1];
      if tx.symbol in Positions(l[..|l| - 1]) then Symbols(l[..|l| - 1])
      else Symbols(l[..|l| - 1]) + [tx.symbol]
  }

  predicate Traded(l: seq<Transaction>, s: string) {
    exists i :: 0 <= i < |l| && l[i].symbol == s
  }

  predicate Distinct(o: seq<string>) {
    forall i, j :: 0 <= i < j < |o| ==> o[i] != o[j]
  }

  /** The total quantity of trades of `s` with action `a`. */
  function TradedQuantity(l: seq<Transaction>, s: string, a: Action): int {
    if l == [] then 0
    else
      var tx := l[|l| - 1];
      TradedQuantity(l[..|l| - 1], s, a) + (if tx.symbol == s && tx.action == a then tx.quantity else 0)
  }

  /** The total cost of trades of `s` with action `a`. */
  function TradedAmount(l: seq<Transaction>, s: string, a: Action): real {
    if l == [] then 0.0
    else
      var tx := l[|l| - 1];
      TradedAmount(l[..|l| - 1], s, a) + (if tx.symbol == s && tx.action == a then Cost(tx) else 0.0)
  }

  /** A symbol has a holding exactly when the ledger trades it. */
  lemma {:induction false} PositionKeys(l: seq<Transaction>, s: string)
    ensures s in Positions(l) <==> Traded(l, s)
  {
    if l != [] {
      var init := l[..|l| - 1];
      PositionKeys(init, s);
      if Traded(init, s) {
        var i :| 0 <= i < |init| && init[i].symbol == s;
        assert l[i].symbol == s;
      }
      if Traded(l, s) && l[|l| - 1].symbol != s {
        var i :| 0 <= i < |l| && l[i].symbol == s;
        assert init[i].symbol == s;
      }
    }
  }

  /** The symbol list names every holding exactly once. */
  lemma {:induction false} SymbolsListHoldings(l: seq<Transaction>)
    ensures Distinct(Symbols(l))
    ensures forall s :: s in Symbols(l) <==> s in Positions(l)
  {
    if l != [] {
      SymbolsListHoldings(l[..|l| - 1]);
    }
  }

  /** Some trade of `a` comes before every trade of `b`. */
  predicate TradedBefore(l: seq<Transaction>, a: string, b: string) {
    exists p :: 0 <= p < |l| && l[p].symbol == a && forall q :: 0 <= q <= p ==> l[q].symbol != b
  }

  lemma TradedBeforeExtends(l: seq<Transaction>, tx: Transaction, a: string, b: string)
    requires TradedBefore(l, a, b)
    ensures TradedBefore(l + [tx], a, b)
  {
    var p :| 0 <= p < |l| && l[p].symbol == a && forall q :: 0 <= q <= p ==> l[q].symbol != b;
    assert (l + [tx])[p].symbol == a;
    forall q | 0 <= q <= p ensures (l + [tx])[q].symbol != b {
      assert (l + [tx])[q] == l[q];
    }
  }

  lemma TradedBeforeNew(l: seq<Transaction>, tx: Transaction, a: string)
    requires Traded(l, a) && !Traded(l, tx.symbol)
    ensures TradedBefore(l + [tx], a, tx.symbol)
  {
    var p :| 0 <= p < |l| && l[p].symbol == a;
    assert (l + [tx])[p].symbol == a;
    forall q | 0 <= q <= p ensures (l + [tx])[q].symbol != tx.symbol {
      assert (l + [tx])[q] == l[q];
    }
  }

  /** The key order is the order of first trade: of two listed symbols, the
      earlier one was traded before the later one ever was. */
  lemma {:induction false} SymbolsInFirstTradeOrder(l: seq<Transaction>)
    ensures forall i, j :: 0 <= i < j < |Symbols(l)| ==> TradedBefore(l, Symbols(l)[i], Symbols(l)[j])
  {
    if l != [] {
      var init, tx := l[..|l| - 1], l[|l| - 1];
      assert l == init + [tx];
      SymbolsInFirstTradeOrder(init);
      SymbolsListHoldings(init);
      var o := Symbols(init);
      forall i, j | 0 <= i < j < |Symbols(l)|
        ensures TradedBefore(l, Symbols(l)[i], Symbols(l)[j])
      {
        if j < |o| {
          TradedBeforeExtends(init, tx, o[i], o[j]);
        } else {
          PositionKeys(init, o[i]);
          PositionKeys(init, tx.symbol);
          TradedBeforeNew(init, tx, o[i]);
        }
      }
    }
  }

  /** A holding's quantity is what was bought minus what was sold, and its
      invested amount what purchases cost minus what sales brought in. */
  lemma {:induction false} NetPosition(l: seq<Transaction>, s: string)
    requires s in Positions(l)
    ensures Positions(l)[s].quantity == TradedQuantity(l, s, Buy) - TradedQuantity(l, s, Sell)
    ensures Positions(l)[s].invested == TradedAmount(l, s, Buy) - TradedAmount(l, s, Sell)
  {
    var init := l[..|l| - 1];
    if s in Positions(init) {
      NetPosition(init, s);
    } else {
      PositionKeys(init, s);
      NoTrades(init, s);
    }
  }

  lemma {:induction false} NoTrades(l: seq<Transaction>, s: string)
    requires !Traded(l, s)
    ensures TradedQuantity(l, s, Buy) == 0 && TradedQuantity(l, s, Sell) == 0
    ensures TradedAmount(l, s, Buy) == 0.0 && TradedAmount(l, s, Sell) == 0.0
  {
    if l != [] {
      NoTrades(l[..|l| - 1], s);
    }
  }

  /** A holding keeps the name and type of the first trade of its symbol. */
  lemma {:induction false} NameFromFirstTrade(l: seq<Transaction>, i: nat)
    requires i < |l|
    requires forall j :: 0 <= j < i ==> l[j].symbol != l[i].symbol
    ensures l[i].symbol in Positions(l)
    ensures Positions(l)[l[i].symbol].name == l[i].name
    ensures Positions(l)[l[i].symbol].kind == l[i].kind
  {
    var init := l[..|l| - 1];
    if i == |l| - 1 {
      PositionKeys(init, l[i].symbol);
    } else {
      NameFromFirstTrade(init, i);
    }
  }

  // ---------------------------------------------------------------------
  // The per-holding cash-flow series
  // ---------------------------------------------------------------------

  /** The ledger rows of one symbol, in ledger order
      (`transactions[transactions['symbol'] == symbol]`). */
  function OfSymbol(l: seq<Transaction>, s: string): seq<Transaction> {
    if l == [] then []
    else OfSymbol(l[..|l| - 1], s) + (if l[|l| - 1].symbol == s then [l[|l| - 1]] else [])
  }

  /** The series of one holding: the flows of its trades, then its current
      value dated now. */
  function HoldingFlows(l: seq<Transaction>, s: string, currentValue: real, now: int): seq<CashFlow> {
    LedgerFlows(OfSymbol(l, s)) + [CashFlow(now, currentValue)]
  }

  lemma TotalAppend(flows: seq<CashFlow>, f: CashFlow)
    ensures Total(flows + [f]) == Total(flows) + f.amount
  {
    assert (flows + [f])[..|flows|] == flows;
  }

  lemma {:induction false} LedgerFlowsAppend(l: seq<Transaction>, tx: Transaction)
    ensures LedgerFlows(l + [tx]) == LedgerFlows(l) + [FlowOf(tx)]
  {
    assert (l + [tx])[..|l|] == l;
  }

  /** The trades of one symbol add up, as cash flows, to minus the amount its
      holding says is invested: the series and the holding agree. */
  lemma {:induction false} HoldingFlowsMatchInvested(l: seq<Transaction>, s: string)
    ensures Total(LedgerFlows(OfSymbol(l, s))) == -(if s in Positions(l) then Positions(l)[s].invested else 0.0)
  {
    if l != [] {
      var init, tx := l[..|l| - 1], l[|l| - 1];
      HoldingFlowsMatchInvested(init, s);
      var rows := OfSymbol(init, s);
      if tx.symbol == s {
        assert OfSymbol(l, s) == rows + [tx];
        LedgerFlowsAppend(rows, tx);
        TotalAppend(LedgerFlows(rows), FlowOf(tx));
        var m := Positions(init);
        var h := if s in m then m[s] else Opened(tx);
        assert Positions(l)[s] == Record(h, tx);
      } else {
        assert OfSymbol(l, s) == rows;
      }
    }
  }

  /** The loop at the holdings and performance pages that rebuilds one
      holding's series from its trades and appends its current value. */
  method HoldingCashFlows(l: seq<Transaction>, symbol: string, currentValue: real, now: int)
    returns (flows: seq<CashFlow>)
    ensures flows == HoldingFlows(l, symbol, currentValue, now)
  {
    var rows := OfSymbol(l, symbol);
    flows := [];
    for i := 0 to |rows|
      invariant flows == LedgerFlows(rows[..i])
    {
      var tx := rows[i];
      var amount := tx.quantity as real * tx.price;
      if tx.action == Buy {
        amount := -amount;
      }
      assert CashFlow(tx.date, amount) == FlowOf(tx);
      assert rows[..i + 1][..i] == rows[..i];
      flows := flows + [CashFlow(tx.date, amount)];
    }
    assert rows[..|rows|] == rows;
    flows := flows + [CashFlow(now, currentValue)];
  }

  /** The annualised return in percent of one holding, as those pages show it. */
  method HoldingXirr(l: seq<Transaction>, symbol: string, currentValue: real, now: int,
                     npv: RateFunction, dnpv: RateFunction)
    returns (xirr: real)
    ensures xirr == XirrPercent(HoldingFlows(l, symbol, currentValue, now), npv, dnpv)
  {
    var flows := HoldingCashFlows(l, symbol, currentValue, now);
    xirr := XirrPercentOf(flows, npv, dnpv);
  }
}
