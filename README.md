# Investment journal: portfolio statistics, XIRR, portfolio selector, registration

A Dafny model of the computational core of a Streamlit investment journal
(`app.py`). It covers four parts.

- **Portfolio statistics.** `InvestmentJournal.calculate_portfolio_stats`
  walks the user's transaction ledger once. Along the way it builds one
  holding per symbol: the net quantity, the net invested amount, and the
  name and type of the first trade. It also builds one signed cash flow per
  trade: a purchase is `-quantity * price`, a sale `+quantity * price`.
  A second loop, over the holdings in key order, values each holding with a
  positive quantity at the current price. In the same iteration it adds
  that holding to the totals and appends one flow dated now, equal to its
  current value. Last, it computes the portfolio's XIRR in percent. An empty
  ledger returns early with zeros. The holdings and performance pages
  rebuild one holding's series with the same sign rule.
- **XIRR solver.** `calculate_xirr`: fewer than two flows give 0.
  Otherwise the list is sorted by date in place, with a stable sort. Then
  at most 100 Newton–Raphson steps run. The solver returns as soon as
  `|npv| < 1e-6`, stops when `|dnpv| < 1e-6`, and clamps every new rate to
  `[-0.99, 10]`.
- **Portfolio selector.** The sidebar lists `"All Portfolios"` and one
  label `f"{name} (ID: {id})"` per portfolio. It reads the chosen label's
  id back with `int(label.split("ID: ")[1].split(")")[0])`.
- **Registration form.** The form checks, in this order, that all five
  fields are non-empty, that the two passwords match, and that the
  password has at least 6 characters. Only then does it insert the
  account. The `username` and `email` columns are each UNIQUE.

Modules:

- `Options`: an `Option` datatype.
- `Xirr`: `CashFlow`, the stable date sort as a function (`SortByDate`)
  and as an in-place insertion sort on an `array`, the Newton skeleton as a
  function (`Newton`), and the solver as a method (`CalculateXirr`) proved
  equal to it.
- `Holdings`: the ledger, the holdings built from it, the sign rule and the
  per-holding series.
- `Stats`: valuation, totals, the portfolio series, and
  `CalculatePortfolioStats`. The method's two loops are proved against the
  `Describes` specification. Lemmas then state what that specification
  implies.
- `Selector`: `str(n)`, `int(s)`, `str.split(sep)[k]`, the label, the
  parse as written, and a parse that reads from the end.
- `Registration`: the form checks and the users table.

The net present value and its derivative, the price lookup, and "now" are
parameters. Dates are day numbers.

## Model

| member | source | states |
|---|---|---|
| Xirr.SortByDate | app.py:323 | the stable date order; characterised by SortByDateSorted, SortByDatePermutes and SortByDateStable |
| Xirr.SortByDateInPlace | app.py:323 | the array ends up equal to `SortByDate` of its old contents |
| Xirr.InsertInPlace | app.py:323 | one insertion-sort step: the prefix `a[..i+1]` becomes `Insert(old prefix, old a[i])`, and the rest of the array is untouched |
| Xirr.SortByDateSorted | app.py:323 | the sorted series is ordered by date |
| Xirr.SortByDatePermutes | app.py:323 | the sorted series has the same multiset of flows as the input |
| Xirr.SortByDateStable | app.py:323 | for every date, the flows of that date keep their relative order (Python's sort is stable) |
| Xirr.Clamp | app.py:348-352 | the result lies in [-0.99, 10]; below -0.99 gives -0.99, above 10 gives 10, a rate in range is unchanged |
| Xirr.Update | app.py:346-352 | the Newton update `rate - npv/dnpv`, after clamping, lies in [-0.99, 10] |
| Xirr.Newton | app.py:326-354 | at most `budget` iterations; the rate is the start rate or lies in [-0.99, 10]; a Converged stop has `abs(npv) < 1e-6`; a FlatDerivative stop has `abs(npv) >= 1e-6` and `abs(dnpv) < 1e-6`; an Exhausted stop used the whole budget |
| Xirr.Xirr | app.py:317-354 | fewer than two flows give 0; otherwise the result is the guess or lies in [-0.99, 10] |
| Xirr.XirrPercent | app.py:414 | 0 for fewer than two flows; always within [-99, 1000] percent |
| Xirr.XirrInRange | app.py:317-354 | a guess in [-0.99, 10] yields a rate in [-0.99, 10] |
| Xirr.NewtonStopsWhenConverged | app.py:340-341 | a rate where `abs(npv) < 1e-6` is returned unchanged after one evaluation |
| Xirr.NewtonStopsWhenFlat | app.py:343-344 | a flat derivative ends the iteration without an update |
| Xirr.NewtonEarlyStop | app.py:328-354 | ending before the 100-iteration budget is spent means `abs(npv)` or `abs(dnpv)` is below 1e-6 at the returned rate |
| Xirr.NewtonStep | app.py:340-352 | away from both stops, one iteration moves to the clamped update and spends one unit of budget |
| Xirr.CalculateXirr | app.py:317-354 | returns `Xirr(old contents, guess)`; with two or more flows the array is left sorted by date, as a permutation of the input and equal to `SortByDate`; with fewer, it is left unchanged |
| Xirr.XirrPercentOf | app.py:414 | the caller's `calculate_xirr(flows) * 100 if len(flows) >= 2 else 0` equals `XirrPercent` |
| Holdings.FlowOf | app.py:384-393 | the sign rule (also at app.py:820-823); characterised by Holdings.FlowSign |
| Holdings.LedgerFlows | app.py:374-393 | the ledger's flows in ledger order; characterised by Holdings.LedgerFlowsPointwise |
| Holdings.FlowSign | app.py:384-393 | for a positive quantity and price, a flow is negative exactly for a purchase and has magnitude `quantity * price` |
| Holdings.LedgerFlowsPointwise | app.py:374-393 | one flow per transaction, in ledger order, each by the sign rule |
| Holdings.Positions | app.py:374-392 | no holding carries a valuation before the valuation loop |
| Holdings.PositionKeys | app.py:376-382 | a symbol has a holding exactly when the ledger trades it |
| Holdings.Symbols | app.py:376-382 | the dict's key order; characterised by Holdings.SymbolsListHoldings (each holding once) and Holdings.SymbolsInFirstTradeOrder (order of first trade) |
| Holdings.SymbolsInFirstTradeOrder | app.py:376-382 | of two symbols in the key order, the earlier one was traded before the later one ever was |
| Holdings.SymbolsListHoldings | app.py:371-382 | the key order lists every holding exactly once |
| Holdings.NetPosition | app.py:384-392 | quantity = bought − sold; invested = cost of purchases − proceeds of sales |
| Holdings.NoTrades | app.py:384-392 | a symbol the ledger never trades has zero traded quantity and amount |
| Holdings.NameFromFirstTrade | app.py:376-382 | a holding keeps the name and type of its symbol's first trade |
| Holdings.HoldingFlowsMatchInvested | app.py:818-823 | the trade flows of one symbol sum to minus the holding's invested amount |
| Holdings.HoldingFlows | app.py:818-825 | one holding's series; characterised by Holdings.HoldingCashFlows and Holdings.HoldingFlowsMatchInvested |
| Holdings.HoldingCashFlows | app.py:818-825 | the loop builds the symbol's trade flows, in ledger order by the sign rule, followed by its current value dated now |
| Holdings.HoldingXirr | app.py:818-826 | the per-holding return is `XirrPercent` of that series |
| Stats.Pct | app.py:405 | the percentage guarded by a positive base (also at app.py:420); characterised by Stats.PctOfBase |
| Stats.Valued | app.py:400-405 | one holding valued; characterised by Stats.ValuedFields |
| Stats.PortfolioFlows | app.py:384-414 | the portfolio series; characterised by Stats.PortfolioFlowsShape |
| Stats.Describes | app.py:356-423 | the returned dict field by field; established by Stats.CalculatePortfolioStats and characterised by Stats.ReturnedHoldings, Stats.TotalsSumValuedHoldings and Stats.EmptyLedgerStats |
| Stats.PctOfBase | app.py:405 | for a positive base, pct × base = gain × 100 and pct has the gain's sign; otherwise pct is 0 |
| Stats.CollectHoldings | app.py:371-393 | the first loop yields `Positions`, `Symbols` and `LedgerFlows` of the ledger |
| Stats.ValueOpenHoldings | app.py:395-411 | the second loop values exactly the open holdings, sums their invested amounts and values, and appends their terminal flows in key order |
| Stats.CalculatePortfolioStats | app.py:356-423 | the result satisfies `Describes`: holdings valued, totals over the open holdings, gain = value − investment, percentage guarded by investment > 0, XIRR of the portfolio series in percent |
| Stats.EmptyLedgerStats | app.py:360-368 | an empty ledger gives zero totals, a zero return and no holdings |
| Stats.ReturnedHoldings | app.py:374-406 | the returned holdings are exactly the traded symbols, with net quantity and amount, valued at the looked-up price exactly when the quantity is positive |
| Stats.ValuedFields | app.py:400-405 | valuing keeps quantity and invested amount and attaches a valuation exactly when the quantity is positive |
| Stats.ReturnedSymbols | app.py:371-382 | the key order lists each returned holding once |
| Stats.TotalsSumValuedHoldings | app.py:396-419 | total investment, current value and total gain are the sums over the valued holdings |
| Stats.ValuedSums | app.py:399-408 | the sums over valued holdings equal the totals over open holdings |
| Stats.TerminalFlowsValued | app.py:399-411 | one terminal flow per open holding, in key order, equal to its recorded current value |
| Stats.PortfolioFlowsShape | app.py:384-414 | the series is the ledger flows by the sign rule, then one flow dated now per valued holding |
| Stats.SingleTrade | app.py:371-420 | the holdings and totals of a one-row ledger |
| Stats.TenAtHundredValuedAtHundredFifty | app.py:384-420 | buying 10 at 100 with a current price of 150 gives invested 1000, value 1500, gain 500, 50 % |
| Stats.UnchangedPriceNoGain | app.py:400-420 | a purchase valued at its own price shows zero gain and zero percent |
| Stats.ClosedPositionExcluded | app.py:384-411 | a symbol bought and sold in the same quantity is kept with quantity 0, no valuation and no terminal flow, and adds nothing to the totals |
| Selector.Digits | app.py:542 | `str(id)` is non-empty, all decimal digits, and has no leading zero |
| Selector.DigitsRoundTrip | app.py:542-548 | reading back the digits of `str(n)` gives `n` |
| Selector.PyInt | app.py:548 | a number `int(s)` returns is the one the stripped string denotes as an optionally signed non-empty run of digits |
| Selector.PyIntSound | app.py:548 | `int(s)` succeeds only when `s` is such a literal with nothing but white space around it; the white space `int` skips is tab to carriage return, space and the non-ASCII `isspace` characters, not U+001C–U+001F |
| Selector.PyIntAccepts | app.py:548 | conversely, every such literal surrounded by that white space (tab to carriage return, space, the non-ASCII `isspace` characters) is accepted and read as the number it denotes |
| Selector.PyIntRejectsSeparator | app.py:548 | `int` does not skip the information separator U+001C, though `str.isspace` counts it as white space: `int("\x1c7")` raises ValueError |
| Selector.PyIntOfDigits | app.py:548 | `int` of a bare digit string is the number it denotes |
| Selector.FindFrom | app.py:548 | the leftmost occurrence of the separator at or after a position, or none at all |
| Selector.SplitField | app.py:548 | `split(sep)[0]` always exists: it is the prefix of `s` before the first occurrence of `sep`, or all of `s` when there is none |
| Selector.Label | app.py:542 | the f-string `f"{name} (ID: {id})"`; characterised by Selector.LabelChars, Selector.ParseLabelIdRoundTrip and Selector.LabelRoundTrip |
| Selector.PortfolioOptions | app.py:542 | "All Portfolios" first, then one label per portfolio row, in row order |
| Selector.ParseLabelId | app.py:548 | the parse as written: it fails (IndexError) when the label holds no "ID: "; characterised by Selector.ParseLabelIdRoundTrip, Selector.ParseLabelIdMisreadsName, Selector.ParseLabelIdRejectsName and Selector.ParseLabelIdRejectsSeparator |
| Selector.ParseLabelIdRoundTrip | app.py:542-548 | for a name without "ID: " and not ending in "ID:", the parse as written gives back the id |
| Selector.ParseLabelIdMisreadsName | app.py:548 | the label of portfolio 3 named "ID: 7)" is read as portfolio 7 |
| Selector.ParseLabelIdRejectsName | app.py:548 | the label of portfolio 3 named "MyID:" makes the parse fail with `int("(")` |
| Selector.ParseLabelIdRejectsSeparator | app.py:545-548 | the label of portfolio 3 named "ID: \x1c7)" makes the parse fail with `int("\x1c7")`, so the selection is unreadable rather than portfolio 7 |
| Selector.ParseLabelIdFromEnd | app.py:548 | the corrected parse: an id it returns is the value of a digit run between " (ID: " and the final ")" |
| Selector.LabelRoundTrip | app.py:542-548 | the parse that reads from the end gives back the id for every name |
| Selector.LabelIsNotAll | app.py:544-546 | no portfolio label equals "All Portfolios" |
| Selector.SelectAsWritten | app.py:545-548 | the source's selection: "All Portfolios" exactly for that option; a portfolio only for a label holding "ID: " |
| Selector.Select | app.py:545-548 | the corrected selection: "All Portfolios" exactly for that option; a portfolio id only from a " (ID: digits)" suffix |
| Selector.SelectChoosesRow | app.py:540-548 | with the corrected parse (`Select`, not the source's `SelectAsWritten`), option 0 selects every portfolio and option k the id of row k−1, for every name |
| Selector.SelectAsWrittenOnPlainNames | app.py:542-548 | when all names are plain, the parse as written and the corrected one select the same |
| Registration.CreateUser | app.py:138-155 | inserts exactly when neither the username nor the email is taken; otherwise the table is unchanged; the UNIQUE constraints are preserved |
| Registration.Register | app.py:480-493 | one iff per outcome, in precedence order: missing field, then mismatch, then too short (< 6), then created or taken by uniqueness; only "created" stores the account |
| Registration.RegisteredAccountsAcceptable | app.py:480-493 | a registration keeps the table unique and adds at most one row, appended, and only for an acceptable form |
| Registration.SecondRegistrationTaken | app.py:480-493 | registering a username again, even with another non-empty email, reports that it is taken and stores nothing |

## Left out

- The net present value and its derivative (`(1 + rate) ** (days / 365.25)`) are not modelled. They are total functions passed in by the caller, evaluated on the date-sorted series.
- Floating point is not modelled. Amounts and rates are exact reals, so rounding and overflow of `float` are not captured.
- Dates are day numbers. `datetime.strptime` and `datetime.now()` are not modelled: "now" is a single parameter. The source calls `datetime.now()` once per open holding, so its terminal flows may differ by microseconds.
- The price lookup (`get_current_price`: yfinance with a 5-minute cache, 0.0 on any failure) is a function parameter.
- SQLite is not modelled: the ledger is a sequence already filtered to the user and portfolio. The users table is a sequence of accounts. Its id, creation date and active flag are not kept.
- Password hashing (SHA-256) is a function parameter.
- The Streamlit UI, messages, charts and all other pages are not modelled, apart from the per-holding series of the holdings and performance pages.
- Stats.EmptyLedgerStats: the source's early return uses integer zeros and no key order; the model uses real zeros and an empty key order.
- Selector.PyInt: it does not accept the underscores or the non-ASCII decimal digits that Python's `int` allows. Labels contain only ASCII digits, so this matters only for names. It also has no limit on the number of digits, where CPython 3.11 and later raise ValueError beyond 4300 digits (`sys.int_max_str_digits`); an id never comes near that, so only a name could reach it.
- Registration: string lengths count Unicode scalar values, as Python's `len` counts code points.
- Xirr.Newton: the source returns only the rate. The iteration count and stop reason in `Solution` exist only so the lemmas can state them.

## Findings

| source | as written | input that shows it | evidently intended | confidence | as-written member | corrected member |
|---|---|---|---|---|---|---|
| app.py:548 | the id is read after the FIRST "ID: " in the label, up to the next ")" | portfolio 3 named "ID: 7)" gives label "ID: 7) (ID: 3)", read as 7; portfolio 3 named "MyID:" gives "MyID: (ID: 3)", where `int("(")` raises ValueError | read the id of the label's own " (ID: …)" suffix, for every name | not executed | Selector.ParseLabelId (Selector.ParseLabelIdMisreadsName, Selector.ParseLabelIdRejectsName) | Selector.ParseLabelIdFromEnd (Selector.LabelRoundTrip, Selector.SelectChoosesRow) |
