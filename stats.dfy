/**
 * `InvestmentJournal.calculate_portfolio_stats`: the holdings of a ledger,
 * valued at current prices, the portfolio totals and the portfolio's
 * annualised return. The price lookup is a parameter (0 stands for "no
 * price"), so are "now" and the net present value functions of the solver.
 */
module Stats {
  import opened Options
  import opened Xirr
  import opened Holdings

  /** `quantity * current_price`: what a holding is worth at a price (0 when
      no price was found). */
  function Worth(quantity: int, price: real): real {
    quantity as real * price
  }

  /** `gain / base * 100`, or 0 when `base <= 0`. */
  function Pct(gain: real, base: real): real {
    if base > 0.0 then gain / base * 100.0 else 0.0
  }

  /** The percentage is the gain per hundred invested: scaled back by the
      base it gives the gain, it has the gain's sign, and it is 0 when nothing
      (or less) is invested. */
  lemma PctOfBase(gain: real, base: real)
    ensures base > 0.0 ==> Pct(gain, base) * base == gain * 100.0
    ensures base > 0.0 ==> (Pct(gain, base) >= 0.0 <==> gain >= 0.0)
    ensures base <= 0.0 ==> Pct(gain, base) == 0.0
  {
  }

  /** A holding valued at `price` when its quantity is positive; any other
      holding is left as it is. */
  function Valued(h: Holding, price: real): Holding {
    if h.quantity > 0 then
      var value := Worth(h.quantity, price);
      var gain := value - h.invested;
      h.(valuation := Some(Valuation(price, value, gain, Pct(gain, h.invested))))
    else h
  }

  function ValuedHoldings(m: map<string, Holding>, price: string -> real): map<string, Holding> {
    map s | s in m :: Valued(m[s], price(s))
  }

  predicate Covers(m: map<string, Holding>, order: seq<string>) {
    forall s :: s in order ==> s in m
  }

  /** The invested amounts of the holdings in `order` with a positive quantity
      (a symbol without a holding adds nothing). */
  function OpenInvested(m: map<string, Holding>, order: seq<string>): real {
    if order == [] then 0.0
    else
      var s := order[|order| - 1];
      OpenInvested(m, order[..|order| - 1]) + (if s in m && m[s].quantity > 0 then m[s].invested else 0.0)
  }

  /** The current values of the holdings in `order` with a positive quantity. */
  function OpenValue(m: map<string, Holding>, order: seq<string>, price: string -> real): real {
    if order == [] then 0.0
    else
      var s := order[|order| - 1];
      OpenValue(m, order[..|order| - 1], price)
        + (if s in m && m[s].quantity > 0 then Worth(m[s].quantity, price(s)) else 0.0)
  }

  /** One flow dated now per holding in `order` with a positive quantity: its
      current value. */
  function TerminalFlows(m: map<string, Holding>, order: seq<string>, price: string -> real, now: int): seq<CashFlow> {
    if order == [] then []
    else
      var s := order[|order| - 1];
      TerminalFlows(m, order[..|order| - 1], price, now)
        + (if s in m && m[s].quantity > 0 then [CashFlow(now, Worth(m[s].quantity, price(s)))] else [])
  }

  /** The symbols in `order` whose holding has a positive quantity. */
  function OpenSymbols(m: map<string, Holding>, order: seq<string>): seq<string> {
    if order == [] then []
    else
      var s := order[|order| - 1];
      OpenSymbols(m, order[..|order| - 1]) + (if s in m && m[s].quantity > 0 then [s] else [])
  }

  /** The series the portfolio return is computed on: the ledger's flows, then
      one terminal flow per open holding. */
  function PortfolioFlows(l: seq<Transaction>, price: string -> real, now: int): seq<CashFlow> {
    LedgerFlows(l) + TerminalFlows(Positions(l), Symbols(l), price, now)
  }

  /** The dictionary `calculate_portfolio_stats` returns; `symbols` is the
      key order of its `holdings`. */
  datatype PortfolioStats = PortfolioStats(totalInvestment: real, currentValue: real, totalGainLoss: real,
                                           totalGainLossPct: real, xirr: real,
                                           holdings: map<string, Holding>, symbols: seq<string>)

  /** The returned holdings are those of the ledger, valued, in the order
      their symbols were first traded. */
  predicate ListsHoldings(st: PortfolioStats, l: seq<Transaction>, price: string -> real) {
    st.holdings == ValuedHoldings(Positions(l), price) && st.symbols == Symbols(l)
  }

  /** What `calculate_portfolio_stats` returns for a ledger: the holdings
      valued, in their key order, the totals over the open ones, the gain and
      its percentage, and the return of the portfolio series. */
  predicate Describes(st: PortfolioStats, l: seq<Transaction>, price: string -> real, now: int,
                      npv: RateFunction, dnpv: RateFunction)
  {
    && ListsHoldings(st, l, price)
    && st.totalInvestment == OpenInvested(Positions(l), Symbols(l))
    && st.currentValue == OpenValue(Positions(l), Symbols(l), price)
    && st.totalGainLoss == st.currentValue - st.totalInvestment
    && st.totalGainLossPct == Pct(st.totalGainLoss, st.totalInvestment)
    && st.xirr == XirrPercent(PortfolioFlows(l, price, now), npv, dnpv)
  }

  // ---------------------------------------------------------------------
  // Sums over the valued holdings
  // ---------------------------------------------------------------------

  function InvestedOf(h: Holding): real {
    h.invested
  }

  function ValueOf(h: Holding): real {
    match h.valuation
    case Some(v) => v.currentValue
    case None => 0.0
  }

  function GainOf(h: Holding): real {
    match h.valuation
    case Some(v) => v.gainLoss
    case None => 0.0
  }

  /** The sum of `f` over the holdings in `order` that carry a valuation. */
  function SumValued(m: map<string, Holding>, order: seq<string>, f: Holding -> real): real {
    if order == [] then 0.0
    else
      var s := order[|order| - 1];
      SumValued(m, order[..|order| - 1], f) + (if s in m && m[s].valuation.Some? then f(m[s]) else 0.0)
  }

  lemma {:induction false} ValuedSums(m: map<string, Holding>, order: seq<string>, price: string -> real)
    requires forall s :: s in m ==> m[s].valuation == None
    ensures SumValued(ValuedHoldings(m, price), order, InvestedOf) == OpenInvested(m, order)
    ensures SumValued(ValuedHoldings(m, price), order, ValueOf) == OpenValue(m, order, price)
    ensures SumValued(ValuedHoldings(m, price), order, GainOf) == OpenValue(m, order, price) - OpenInvested(m, order)
  {
    if order != [] {
      ValuedSums(m, order[..|order| - 1], price);
    }
  }

  // ---------------------------------------------------------------------
  // What the result says
  // ---------------------------------------------------------------------

  /** An empty ledger gives zero totals, a zero return and no holdings. */
  lemma EmptyLedgerStats(st: PortfolioStats, price: string -> real, now: int, npv: RateFunction, dnpv: RateFunction)
    requires Describes(st, [], price, now, npv, dnpv)
    ensures st == PortfolioStats(0.0, 0.0, 0.0, 0.0, 0.0, map[], [])
  {
    assert PortfolioFlows([], price, now) == [];
  }

  /** The returned holdings: exactly the traded symbols, each with the net
      quantity and net invested amount of its trades, valued at the looked-up
      price exactly when its quantity is positive. */
  lemma ReturnedHoldings(st: PortfolioStats, l: seq<Transaction>, price: string -> real, s: string)
    requires ListsHoldings(st, l, price)
    ensures s in st.holdings <==> Traded(l, s)
    ensures s in st.holdings ==>
              var h := st.holdings[s];
              && h.quantity == TradedQuantity(l, s, Buy) - TradedQuantity(l, s, Sell)
              && h.invested == TradedAmount(l, s, Buy) - TradedAmount(l, s, Sell)
              && (h.valuation.Some? <==> h.quantity > 0)
              && (h.quantity > 0 ==>
                    var value := Worth(h.quantity, price(s));
                    h.valuation.value == Valuation(price(s), value, value - h.invested,
                                                   Pct(value - h.invested, h.invested)))
  {
    var m := Positions(l);
    PositionKeys(l, s);
    if s in m {
      NetPosition(l, s);
      ValuedFields(m[s], price(s));
    }
  }

  /** A holding keeps its quantity and invested amount when valued, and
      carries a valuation exactly when its quantity is positive. */
  lemma ValuedFields(h: Holding, price: real)
    requires h.valuation == None
    ensures var v := Valued(h, price);
            && v.quantity == h.quantity && v.invested == h.invested
            && (v.valuation.Some? <==> h.quantity > 0)
            && (h.quantity > 0 ==>
                  var value := Worth(h.quantity, price);
                  v.valuation.value == Valuation(price, value, value - h.invested, Pct(value - h.invested, h.invested)))
  {
  }

  /** The symbol order lists every returned holding once. */
  lemma ReturnedSymbols(st: PortfolioStats, l: seq<Transaction>, price: string -> real)
    requires ListsHoldings(st, l, price)
    ensures Distinct(st.symbols) && forall s :: s in st.symbols <==> s in st.holdings
  {
    SymbolsListHoldings(l);
  }

  /** The totals are the sums over the valued holdings (those with a positive
      quantity), and the portfolio gain is the sum of the holdings' gains. */
  lemma TotalsSumValuedHoldings(st: PortfolioStats, l: seq<Transaction>, price: string -> real, now: int,
                                npv: RateFunction, dnpv: RateFunction)
    requires Describes(st, l, price, now, npv, dnpv)
    ensures Covers(st.holdings, st.symbols)
    ensures st.totalInvestment == SumValued(st.holdings, st.symbols, InvestedOf)
    ensures st.currentValue == SumValued(st.holdings, st.symbols, ValueOf)
    ensures st.totalGainLoss == SumValued(st.holdings, st.symbols, GainOf)
  {
    SymbolsListHoldings(l);
    ValuedSums(Positions(l), Symbols(l), price);
  }

  /** One terminal flow per open holding, in key order, each the current
      value its valuation records. */
  lemma {:induction false} TerminalFlowsValued(m: map<string, Holding>, order: seq<string>,
                                               price: string -> real, now: int)
    requires forall s :: s in m ==> m[s].valuation == None
    ensures var t, v := TerminalFlows(m, order, price, now), ValuedHoldings(m, price);
            var open := OpenSymbols(v, order);
            && |t| == |open|
            && forall k :: 0 <= k < |open| ==>
                 open[k] in v && v[open[k]].valuation.Some? &&
                 t[k] == CashFlow(now, v[open[k]].valuation.value.currentValue)
  {
    if order != [] {
      TerminalFlowsValued(m, order[..|order| - 1], price, now);
      var s := order[|order| - 1];
      if s in m {
        ValuedFields(m[s], price(s));
      }
    }
  }

  /** The portfolio series: one flow per transaction in ledger order by the
      sign rule, then one flow dated now per valued holding, equal to its
      current value. */
  lemma PortfolioFlowsShape(st: PortfolioStats, l: seq<Transaction>, price: string -> real, now: int)
    requires ListsHoldings(st, l, price)
    ensures var flows, open := PortfolioFlows(l, price, now), OpenSymbols(st.holdings, st.symbols);
            && |flows| == |l| + |open|
            && (forall i :: 0 <= i < |l| ==> flows[i] == FlowOf(l[i]))
            && (forall k :: 0 <= k < |open| ==>
                  open[k] in st.holdings && st.holdings[open[k]].valuation.Some? &&
                  flows[|l| + k] == CashFlow(now, st.holdings[open[k]].valuation.value.currentValue))
  {
    LedgerFlowsPointwise(l);
    TerminalFlowsValued(Positions(l), Symbols(l), price, now);
    var ledger, terminal := LedgerFlows(l), TerminalFlows(Positions(l), Symbols(l), price, now);
    assert PortfolioFlows(l, price, now) == ledger + terminal;
    assert forall i :: 0 <= i < |l| ==> (ledger + terminal)[i] == ledger[i];
    assert forall k :: 0 <= k < |terminal| ==> (ledger + terminal)[|l| + k] == terminal[k];
  }

  // ---------------------------------------------------------------------
  // The computation, as the source performs it
  // ---------------------------------------------------------------------

  /** The first loop of `calculate_portfolio_stats`: each transaction, in
      ledger order, opens its symbol's holding if needed, updates its quantity
      and invested amount, and appends its signed cash flow. */
  method CollectHoldings(ledger: seq<Transaction>)
    returns (holdings: map<string, Holding>, symbols: seq<string>, flows: seq<CashFlow>)
    ensures holdings == Positions(ledger)
    ensures symbols == Symbols(ledger)
    ensures flows == LedgerFlows(ledger)
  {
    holdings, symbols, flows := map[], [], [];
    for i := 0 to |ledger|
      invariant holdings == Positions(ledger[..i])
      invariant symbols == Symbols(ledger[..i])
      invariant flows == LedgerFlows(ledger[..i])
    {
      var tx := ledger[i];
      assert ledger[..i + 1][..i] == ledger[..i] && ledger[..i + 1][i] == tx;
      ghost var before := holdings;
      ghost var current := if tx.symbol in before then before[tx.symbol] else Opened(tx);
      if tx.symbol !in holdings {
        holdings := holdings[tx.symbol := Holding(0, 0.0, tx.name, tx.kind, None)];
        symbols := symbols + [tx.symbol];
      }
      var h := holdings[tx.symbol];
      var investment := tx.quantity as real * tx.price;
      assert h == current && investment == Cost(tx);
      if tx.action == Buy {
        holdings := holdings[tx.symbol := h.(quantity := h.quantity + tx.quantity,
                                             invested := h.invested + investment)];
        flows := flows + [CashFlow(tx.date, -investment)];
      } else {
        holdings := holdings[tx.symbol := h.(quantity := h.quantity - tx.quantity,
                                             invested := h.invested - investment)];
        flows := flows + [CashFlow(tx.date, investment)];
      }
      assert holdings[tx.symbol] == Record(current, tx);
      assert holdings == before[tx.symbol := Record(current, tx)];
    }
    assert ledger[..|ledger|] == ledger;
  }

  /** The holdings with those among `done` valued. */
  function ValuedAmong(m: map<string, Holding>, done: seq<string>, price: string -> real): map<string, Holding> {
    map s | s in m :: if s in done then Valued(m[s], price(s)) else m[s]
  }

  lemma ValuedAmongStep(m: map<string, Holding>, order: seq<string>, k: nat, price: string -> real)
    requires Covers(m, order) && k < |order|
    ensures var s := order[k];
            ValuedAmong(m, order[..k + 1], price) == ValuedAmong(m, order[..k], price)[s := Valued(m[s], price(s))]
  {
    assert order[..k + 1] == order[..k] + [order[k]];
  }

  lemma ValuedAmongAll(m: map<string, Holding>, order: seq<string>, price: string -> real)
    requires forall s :: s in order <==> s in m
    ensures ValuedAmong(m, order, price) == ValuedHoldings(m, price)
  {
  }

  /** Extending a prefix of the key order by one symbol adds that holding's
      share to each running total. */
  lemma PrefixStep(m: map<string, Holding>, order: seq<string>, k: nat, price: string -> real, now: int)
    requires Covers(m, order) && k < |order|
    ensures var h := m[order[k]];
            && OpenInvested(m, order[..k + 1]) == OpenInvested(m, order[..k]) + (if h.quantity > 0 then h.invested else 0.0)
            && OpenValue(m, order[..k + 1], price)
                 == OpenValue(m, order[..k], price) + (if h.quantity > 0 then Worth(h.quantity, price(order[k])) else 0.0)
            && TerminalFlows(m, order[..k + 1], price, now)
                 == TerminalFlows(m, order[..k], price, now)
                    + (if h.quantity > 0 then [CashFlow(now, Worth(h.quantity, price(order[k])))] else [])
  {
    assert order[..k + 1][..k] == order[..k];
  }

  /** What the second loop has done after the first `k` symbols of the key
      order: those holdings valued, the totals and flows of the open ones. */
  predicate ValuedPrefix(positions: map<string, Holding>, symbols: seq<string>, flows: seq<CashFlow>,
                         price: string -> real, now: int, k: nat,
                         holdings: map<string, Holding>, totalInvestment: real, currentValue: real,
                         allFlows: seq<CashFlow>)
    requires k <= |symbols|
  {
    && holdings == ValuedAmong(positions, symbols[..k], price)
    && totalInvestment == OpenInvested(positions, symbols[..k])
    && currentValue == OpenValue(positions, symbols[..k], price)
    && allFlows == flows + TerminalFlows(positions, symbols[..k], price, now)
  }

  /** One step of the second loop: valuing the next open holding (or passing
      over a closed one) extends the prefix by one symbol. */
  lemma ValueStep(positions: map<string, Holding>, symbols: seq<string>, flows: seq<CashFlow>,
                  price: string -> real, now: int, k: nat,
                  holdings: map<string, Holding>, totalInvestment: real, currentValue: real,
                  allFlows: seq<CashFlow>)
    requires Covers(positions, symbols) && k < |symbols|
    requires ValuedPrefix(positions, symbols, flows, price, now, k, holdings, totalInvestment, currentValue, allFlows)
    ensures var s := symbols[k];
            var h := positions[s];
            && s in holdings && holdings[s].quantity == h.quantity && holdings[s].invested == h.invested
            && (h.quantity > 0 ==>
                  var value := Worth(h.quantity, price(s));
                  ValuedPrefix(positions, symbols, flows, price, now, k + 1,
                               holdings[s := Valued(holdings[s], price(s))], totalInvestment + h.invested,
                               currentValue + value, allFlows + [CashFlow(now, value)]))
            && (h.quantity <= 0 ==>
                  ValuedPrefix(positions, symbols, flows, price, now, k + 1,
                               holdings, totalInvestment, currentValue, allFlows))
  {
    var s := symbols[k];
    PrefixStep(positions, symbols, k, price, now);
    ValuedAmongStep(positions, symbols, k, price);
    var h := positions[s];
    if h.quantity > 0 {
      var value := Worth(h.quantity, price(s));
      assert Valued(holdings[s], price(s)) == Valued(h, price(s));
      assert (flows + TerminalFlows(positions, symbols[..k], price, now)) + [CashFlow(now, value)]
          == flows + (TerminalFlows(positions, symbols[..k], price, now) + [CashFlow(now, value)]);
    } else {
      assert Valued(h, price(s)) == h;
    }
  }

  /** The second loop: each holding, in key order, with a positive quantity
      gets its price, value, gain and gain percentage, adds to the totals and
      appends its value, dated now, to the flows. */
  method ValueOpenHoldings(positions: map<string, Holding>, symbols: seq<string>, flows: seq<CashFlow>,
                           price: string -> real, now: int)
    returns (holdings: map<string, Holding>, totalInvestment: real, currentValue: real,
             allFlows: seq<CashFlow>)
    requires forall s :: s in symbols <==> s in positions
    ensures holdings == ValuedHoldings(positions, price)
    ensures totalInvestment == OpenInvested(positions, symbols)
    ensures currentValue == OpenValue(positions, symbols, price)
    ensures allFlows == flows + TerminalFlows(positions, symbols, price, now)
  {
    holdings, totalInvestment, currentValue, allFlows := positions, 0.0, 0.0, flows;
    for k := 0 to |symbols|
      invariant ValuedPrefix(positions, symbols, flows, price, now, k, holdings, totalInvestment, currentValue, allFlows)
    {
      var s := symbols[k];
      ValueStep(positions, symbols, flows, price, now, k, holdings, totalInvestment, currentValue, allFlows);
      var h := holdings[s];
      if h.quantity > 0 {
        var currentPrice := price(s);
        var value := Worth(h.quantity, currentPrice);
        var gain := value - h.invested;
        var gainPct := Pct(gain, h.invested);
        var valued := h.(valuation := Some(Valuation(currentPrice, value, gain, gainPct)));
        assert valued == Valued(h, currentPrice);
        holdings := holdings[s := valued];
        totalInvestment := totalInvestment + h.invested;
        currentValue := currentValue + value;
        allFlows := allFlows + [CashFlow(now, value)];
      }
    }
    assert symbols[..|symbols|] == symbols;
    ValuedAmongAll(positions, symbols, price);
  }

  /** `calculate_portfolio_stats`: the early return on an empty ledger, the
      two loops, then the portfolio return. */
  method CalculatePortfolioStats(ledger: seq<Transaction>, price: string -> real, now: int,
                                 npv: RateFunction, dnpv: RateFunction)
    returns (stats: PortfolioStats)
    ensures Describes(stats, ledger, price, now, npv, dnpv)
  {
    if ledger == [] {
      assert PortfolioFlows([], price, now) == [];
      return PortfolioStats(0.0, 0.0, 0.0, 0.0, 0.0, map[], []);
    }
    var positions, symbols, flows := CollectHoldings(ledger);
    SymbolsListHoldings(ledger);
    var holdings, totalInvestment, currentValue, allFlows := ValueOpenHoldings(positions, symbols, flows, price, now);
    assert allFlows == PortfolioFlows(ledger, price, now);
    var xirr := XirrPercentOf(allFlows, npv, dnpv);
    var gainLoss := currentValue - totalInvestment;
    var gainLossPct := Pct(gainLoss, totalInvestment);
    stats := PortfolioStats(totalInvestment, currentValue, gainLoss, gainLossPct, xirr, holdings, symbols);
  }

  // ---------------------------------------------------------------------
  // Worked cases
  // ---------------------------------------------------------------------

  lemma OneRowLedger(tx: Transaction)
    ensures Positions([tx]) == map[tx.symbol := Record(Opened(tx), tx)]
    ensures Symbols([tx]) == [tx.symbol]
    ensures LedgerFlows([tx]) == [FlowOf(tx)]
  {
    assert [tx][..0] == [];
    assert Positions([tx][..0]) == map[];
  }

  lemma OneSymbolTotals(m: map<string, Holding>, s: string, price: string -> real)
    requires s in m
    ensures OpenInvested(m, [s]) == (if m[s].quantity > 0 then m[s].invested else 0.0)
    ensures OpenValue(m, [s], price) == (if m[s].quantity > 0 then Worth(m[s].quantity, price(s)) else 0.0)
  {
    assert [s][..0] == [];
  }

  /** The holdings and totals of a one-row ledger. */
  lemma SingleTrade(st: PortfolioStats, tx: Transaction, price: string -> real, now: int,
                    npv: RateFunction, dnpv: RateFunction)
    requires Describes(st, [tx], price, now, npv, dnpv)
    ensures var h := Record(Opened(tx), tx);
            && st.holdings == map[tx.symbol := Valued(h, price(tx.symbol))]
            && st.symbols == [tx.symbol]
            && st.totalInvestment == (if h.quantity > 0 then h.invested else 0.0)
            && st.currentValue == (if h.quantity > 0 then Worth(h.quantity, price(tx.symbol)) else 0.0)
  {
    OneRowLedger(tx);
    var m := Positions([tx]);
    OneSymbolTotals(m, tx.symbol, price);
    assert ValuedHoldings(m, price) == map[tx.symbol := Valued(m[tx.symbol], price(tx.symbol))];
  }

  /** Buy 10 at 100, current price 150: quantity 10, invested 1000, value
      1500, gain 500, gain 50 percent. */
  lemma TenAtHundredValuedAtHundredFifty(st: PortfolioStats, sym: string, name: string, kind: string, date: int,
                                         price: string -> real, now: int,
                                         npv: RateFunction, dnpv: RateFunction)
    requires price(sym) == 150.0
    requires Describes(st, [Transaction(sym, name, kind, Buy, date, 10, 100.0)], price, now, npv, dnpv)
    ensures && st.holdings == map[sym := Holding(10, 1000.0, name, kind, Some(Valuation(150.0, 1500.0, 500.0, 50.0)))]
            && st.totalInvestment == 1000.0 && st.currentValue == 1500.0
            && st.totalGainLoss == 500.0 && st.totalGainLossPct == 50.0
  {
    var tx := Transaction(sym, name, kind, Buy, date, 10, 100.0);
    SingleTrade(st, tx, price, now, npv, dnpv);
    assert Cost(tx) == 1000.0;
    assert Worth(10, 150.0) == 1500.0;
    assert Pct(500.0, 1000.0) == 50.0;
  }

  /** A single purchase valued at its own price shows no gain. */
  lemma UnchangedPriceNoGain(st: PortfolioStats, tx: Transaction, price: string -> real, now: int,
                             npv: RateFunction, dnpv: RateFunction)
    requires tx.action == Buy && tx.quantity > 0 && tx.price > 0.0 && price(tx.symbol) == tx.price
    requires Describes(st, [tx], price, now, npv, dnpv)
    ensures && st.totalGainLoss == 0.0 && st.totalGainLossPct == 0.0
            && tx.symbol in st.holdings && GainOf(st.holdings[tx.symbol]) == 0.0
  {
    SingleTrade(st, tx, price, now, npv, dnpv);
    assert Worth(tx.quantity, tx.price) == Cost(tx);
  }

  /** A symbol bought and then sold in the same quantity stays in the
      holdings with quantity 0, unvalued, and adds nothing to the totals or
      to the terminal flows. */
  lemma ClosedPositionExcluded(st: PortfolioStats, buy: Transaction, sell: Transaction, price: string -> real,
                               now: int, npv: RateFunction, dnpv: RateFunction)
    requires buy.action == Buy && sell.action == Sell
    requires buy.symbol == sell.symbol && buy.quantity == sell.quantity
    requires Describes(st, [buy, sell], price, now, npv, dnpv)
    ensures && buy.symbol in st.holdings
            && st.holdings[buy.symbol].quantity == 0
            && st.holdings[buy.symbol].valuation == None
            && st.totalInvestment == 0.0 && st.currentValue == 0.0
            && PortfolioFlows([buy, sell], price, now) == [FlowOf(buy), FlowOf(sell)]
  {
    var l := [buy, sell];
    assert l[..1] == [buy];
    OneRowLedger(buy);
    var m := Positions(l);
    assert m[buy.symbol].quantity == 0;
    assert Symbols(l) == [buy.symbol];
    assert LedgerFlows(l) == [FlowOf(buy), FlowOf(sell)];
    assert [buy.symbol][..0] == [];
    assert TerminalFlows(m, [buy.symbol], price, now) == [];
    OneSymbolTotals(m, buy.symbol, price);
  }
}
