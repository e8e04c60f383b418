/**
 * The XIRR solver of `InvestmentJournal.calculate_xirr`: a guard on short
 * series, an in-place stable sort of the series by date, then at most 100
 * Newton-Raphson steps on the net present value, each step clamped to
 * [-0.99, 10].
 *
 * The net present value and its derivative use a fractional power of
 * (1 + rate); they are not modelled and enter as parameters: total functions
 * of the date-sorted series and the rate.
 */
module Xirr {

  /** A dated cash flow: a day number and a signed amount (negative when the
      investor pays money in, positive when money comes back). */
  datatype CashFlow = CashFlow(date: int, amount: real)

  /** The net present value of a date-sorted series at a rate, or its
      derivative with respect to the rate. */
  type RateFunction = (seq<CashFlow>, real) -> real

  const MaxIterations: nat := 100
  const Tolerance: real := 0.000001
  const MinRate: real := -0.99
  const MaxRate: real := 10.0
  /** The default `guess` of `calculate_xirr`; every caller uses it. */
  const DefaultGuess: real := 0.1

  function Abs(x: real): real {
    if x < 0.0 then -x else x
  }

  predicate InRange(rate: real) {
    MinRate <= rate <= MaxRate
  }

  // ---------------------------------------------------------------------
  // Sorting by date
  // ---------------------------------------------------------------------

  predicate SortedByDate(s: seq<CashFlow>) {
    forall i, j :: 0 <= i < j < |s| ==> s[i].date <= s[j].date
  }

  /** Places `x` after every element of `s`, counted from the end, whose date
      is not later than its own: the step of a stable insertion sort. */
  function Insert(s: seq<CashFlow>, x: CashFlow): seq<CashFlow> {
    if s == [] || s[|s| - 1].date <= x.date then s + [x]
    else Insert(s[..|s| - 1], x) + [s[|s| - 1]]
  }

  /** The series sorted ascending by date, equal dates kept in their original
      order: what Python's stable `list.sort(key=date)` leaves in the list. */
  function SortByDate(s: seq<CashFlow>): seq<CashFlow> {
    if s == [] then [] else Insert(SortByDate(s[..|s| - 1]), s[|s| - 1])
  }

  /** The flows of `s` dated `d`, in their order in `s`. */
  function OnDate(s: seq<CashFlow>, d: int): seq<CashFlow> {
    if s == [] then []
    else OnDate(s[..|s| - 1], d) + (if s[|s| - 1].date == d then [s[|s| - 1]] else [])
  }

  lemma {:induction false} InsertPermutes(s: seq<CashFlow>, x: CashFlow)
    ensures multiset(Insert(s, x)) == multiset(s) + multiset{x}
  {
    if s == [] || s[|s| - 1].date <= x.date {
    } else {
      InsertPermutes(s[..|s| - 1], x);
      assert s == s[..|s| - 1] + [s[|s| - 1]];
    }
  }

  lemma {:induction false} InsertKeepsSorted(s: seq<CashFlow>, x: CashFlow)
    requires SortedByDate(s)
    ensures SortedByDate(Insert(s, x))
  {
    if s == [] || s[|s| - 1].date <= x.date {
    } else {
      var init, last := s[..|s| - 1], s[|s| - 1];
      InsertKeepsSorted(init, x);
      InsertPermutes(init, x);
      var r := Insert(init, x);
      forall i | 0 <= i < |r| ensures r[i].date <= last.date {
        assert r[i] in multiset(r);
        assert r[i] in multiset(init) || r[i] == x;
      }
    }
  }

  /** The characterisation the in-place insertion uses: inserting `x` puts it
      right after position `j` when everything from `j` on is later than `x`
      and the element before `j` is not. */
  lemma {:induction false} InsertSplits(s: seq<CashFlow>, x: CashFlow, j: nat)
    requires j <= |s|
    requires forall k :: j <= k < |s| ==> s[k].date > x.date
    requires j == 0 || s[j - 1].date <= x.date
    ensures Insert(s, x) == s[..j] + [x] + s[j..]
  {
    if j < |s| {
      var init := s[..|s| - 1];
      InsertSplits(init, x, j);
      assert init[..j] == s[..j];
      assert init[j..] + [s[|s| - 1]] == s[j..];
    } else {
      assert s[..j] == s;
    }
  }

  lemma {:induction false} OnDateAppend(a: seq<CashFlow>, b: seq<CashFlow>, d: int)
    ensures OnDate(a + b, d) == OnDate(a, d) + OnDate(b, d)
  {
    if b == [] {
      assert a + b == a;
    } else {
      OnDateAppend(a, b[..|b| - 1], d);
      assert (a + b)[..|a + b| - 1] == a + b[..|b| - 1];
    }
  }

  lemma {:induction false} InsertStable(s: seq<CashFlow>, x: CashFlow, d: int)
    ensures OnDate(Insert(s, x), d) == OnDate(s, d) + (if x.date == d then [x] else [])
  {
    if s == [] || s[|s| - 1].date <= x.date {
      assert (s + [x])[..|s|] == s;
    } else {
      var init, last := s[..|s| - 1], s[|s| - 1];
      InsertStable(init, x, d);
      OnDateAppend(Insert(init, x), [last], d);
      assert OnDate([last], d) == OnDate([], d) + (if last.date == d then [last] else []);
    }
  }

  /** Sorting leaves the series ordered by date. */
  lemma {:induction false} SortByDateSorted(s: seq<CashFlow>)
    ensures SortedByDate(SortByDate(s))
  {
    if s != [] {
      SortByDateSorted(s[..|s| - 1]);
      InsertKeepsSorted(SortByDate(s[..|s| - 1]), s[|s| - 1]);
    }
  }

  /** Sorting neither adds, drops nor changes a cash flow. */
  lemma {:induction false} SortByDatePermutes(s: seq<CashFlow>)
    ensures multiset(SortByDate(s)) == multiset(s)
  {
    if s != [] {
      SortByDatePermutes(s[..|s| - 1]);
      InsertPermutes(SortByDate(s[..|s| - 1]), s[|s| - 1]);
      assert s == s[..|s| - 1] + [s[|s| - 1]];
    }
  }

  /** Sorting is stable: the flows of any one date keep their relative order. */
  lemma {:induction false} SortByDateStable(s: seq<CashFlow>, d: int)
    ensures OnDate(SortByDate(s), d) == OnDate(s, d)
  {
    if s != [] {
      SortByDateStable(s[..|s| - 1], d);
      InsertStable(SortByDate(s[..|s| - 1]), s[|s| - 1], d);
    }
  }

  /** Moves `a[i]` left past every later-dated element of the sorted prefix
      `a[..i]`. */
  method InsertInPlace(a: array<CashFlow>, i: nat)
    requires i < a.Length
    modifies a
    ensures a[..i + 1] == Insert(old(a[..i]), old(a[i]))
    ensures a[i + 1..] == old(a[i + 1..])
  {
    ghost var prefix := a[..i];
    ghost var rest := a[i + 1..];
    var x := a[i];
    var j := i;
    while j > 0 && a[j - 1].date > x.date
      invariant 0 <= j <= i
      invariant forall k :: 0 <= k < j ==> a[k] == prefix[k]
      invariant forall k :: j < k <= i ==> a[k] == prefix[k - 1]
      invariant forall k :: j <= k < i ==> prefix[k].date > x.date
      invariant a[i + 1..] == rest
    {
      a[j] := a[j - 1];
      j := j - 1;
    }
    a[j] := x;
    InsertSplits(prefix, x, j);
    assert a[..i + 1] == prefix[..j] + [x] + prefix[j..];
  }

  /** The in-place sort of `cash_flows.sort(key=lambda x: x[0])`. */
  method SortByDateInPlace(a: array<CashFlow>)
    modifies a
    ensures a[..] == SortByDate(old(a[..]))
  {
    ghost var input := a[..];
    for i := 0 to a.Length
      invariant a[..i] == SortByDate(input[..i])
      invariant a[i..] == input[i..]
    {
      assert input[..i + 1][..i] == input[..i];
      InsertInPlace(a, i);
    }
    assert a[..] == a[..a.Length];
    assert input == input[..a.Length];
  }

  // ---------------------------------------------------------------------
  // The Newton-Raphson skeleton
  // ---------------------------------------------------------------------

  /** The rate after one update, clamped: below -0.99 becomes -0.99, above 10
      becomes 10. */
  function Clamp(rate: real): (r: real)
    ensures InRange(r)
    ensures InRange(rate) ==> r == rate
    ensures rate < MinRate ==> r == MinRate
    ensures rate > MaxRate ==> r == MaxRate
  {
    if rate < MinRate then MinRate else if rate > MaxRate then MaxRate else rate
  }

  /** One Newton-Raphson update `rate - npv / dnpv`, clamped. */
  function Update(rate: real, value: real, slope: real): (r: real)
    requires slope != 0.0
    ensures InRange(r)
  {
    Clamp(rate - value / slope)
  }

  /** Why the iteration ended. */
  datatype Stop = Converged | FlatDerivative | Exhausted

  /** The rate the iteration returns, with the number of iterations it
      began and the reason it ended. */
  datatype Solution = Solution(rate: real, iterations: nat, stop: Stop)

  /** Newton-Raphson from `rate` with `budget` iterations left on the sorted
      series `flows`. */
  function Newton(flows: seq<CashFlow>, rate: real, budget: nat,
                  npv: RateFunction, dnpv: RateFunction): (r: Solution)
    ensures r.iterations <= budget
    ensures r.rate == rate || InRange(r.rate)
    ensures r.stop == Converged ==> 1 <= r.iterations && Abs(npv(flows, r.rate)) < Tolerance
    ensures r.stop == FlatDerivative ==>
              1 <= r.iterations && Abs(npv(flows, r.rate)) >= Tolerance && Abs(dnpv(flows, r.rate)) < Tolerance
    ensures r.stop == Exhausted ==> r.iterations == budget
    decreases budget
  {
    if budget == 0 then Solution(rate, 0, Exhausted)
    else
      var n := npv(flows, rate);
      if Abs(n) < Tolerance then Solution(rate, 1, Converged)
      else
        var d := dnpv(flows, rate);
        if Abs(d) < Tolerance then Solution(rate, 1, FlatDerivative)
        else
          var next := Newton(flows, Update(rate, n, d), budget - 1, npv, dnpv);
          next.(iterations := next.iterations + 1)
  }

  /** The value of `calculate_xirr(flows, guess)`: 0 for fewer than two flows,
      else the rate Newton-Raphson reaches on the date-sorted series. */
  function Xirr(flows: seq<CashFlow>, guess: real, npv: RateFunction, dnpv: RateFunction): (r: real)
    ensures |flows| < 2 ==> r == 0.0
    ensures |flows| >= 2 ==> r == guess || InRange(r)
  {
    if |flows| < 2 then 0.0
    else Newton(SortByDate(flows), guess, MaxIterations, npv, dnpv).rate
  }

  /** The annualised return in percent that the callers show:
      `calculate_xirr(flows) * 100 if len(flows) >= 2 else 0`. */
  function XirrPercent(flows: seq<CashFlow>, npv: RateFunction, dnpv: RateFunction): (r: real)
    ensures |flows| < 2 ==> r == 0.0
    ensures MinRate * 100.0 <= r <= MaxRate * 100.0
  {
    if |flows| >= 2 then Xirr(flows, DefaultGuess, npv, dnpv) * 100.0 else 0.0
  }

  /** A guess inside [-0.99, 10] yields a rate inside [-0.99, 10], whatever
      the series and however the iteration ends. */
  lemma XirrInRange(flows: seq<CashFlow>, guess: real, npv: RateFunction, dnpv: RateFunction)
    requires InRange(guess)
    ensures InRange(Xirr(flows, guess, npv, dnpv))
  {
  }

  /** A rate at which the net present value is already within tolerance is
      returned unchanged after one evaluation. */
  lemma NewtonStopsWhenConverged(flows: seq<CashFlow>, rate: real, budget: nat,
                                 npv: RateFunction, dnpv: RateFunction)
    requires budget > 0 && Abs(npv(flows, rate)) < Tolerance
    ensures Newton(flows, rate, budget, npv, dnpv) == Solution(rate, 1, Converged)
  {
  }

  /** A flat derivative stops the iteration without an update. */
  lemma NewtonStopsWhenFlat(flows: seq<CashFlow>, rate: real, budget: nat,
                            npv: RateFunction, dnpv: RateFunction)
    requires budget > 0 && Abs(npv(flows, rate)) >= Tolerance && Abs(dnpv(flows, rate)) < Tolerance
    ensures Newton(flows, rate, budget, npv, dnpv) == Solution(rate, 1, FlatDerivative)
  {
  }

  /** When the iteration ends before its budget is spent, the returned rate is
      one where the net present value is within tolerance or the derivative is
      too flat to go on. */
  lemma {:induction false} NewtonEarlyStop(flows: seq<CashFlow>, rate: real, budget: nat,
                                           npv: RateFunction, dnpv: RateFunction)
    ensures var r := Newton(flows, rate, budget, npv, dnpv);
            r.iterations < budget ==>
              Abs(npv(flows, r.rate)) < Tolerance || Abs(dnpv(flows, r.rate)) < Tolerance
  {
  }

  /** Away from convergence and from a flat derivative, one iteration moves
      to the clamped Newton update and spends one unit of the budget. */
  lemma NewtonStep(flows: seq<CashFlow>, rate: real, value: real, slope: real, budget: nat,
                   npv: RateFunction, dnpv: RateFunction)
    requires budget > 0 && value == npv(flows, rate) && slope == dnpv(flows, rate)
    requires Abs(value) >= Tolerance && Abs(slope) >= Tolerance
    ensures Newton(flows, rate, budget, npv, dnpv).rate == Newton(flows, Update(rate, value, slope), budget - 1, npv, dnpv).rate
  {
  }

  /** `calculate_xirr`: sorts `flows` in place and runs the iteration. */
  method CalculateXirr(flows: array<CashFlow>, guess: real, npv: RateFunction, dnpv: RateFunction)
    returns (rate: real)
    modifies flows
    ensures flows.Length < 2 ==> flows[..] == old(flows[..])
    ensures flows.Length >= 2 ==> flows[..] == SortByDate(old(flows[..]))
    ensures flows.Length >= 2 ==>
              SortedByDate(flows[..]) && multiset(flows[..]) == multiset(old(flows[..]))
    ensures rate == Xirr(old(flows[..]), guess, npv, dnpv)
  {
    if flows.Length < 2 {
      return 0.0;
    }
    ghost var input := flows[..];
    SortByDateInPlace(flows);
    var sorted := flows[..];
    SortByDateSorted(input);
    SortByDatePermutes(input);
    assert SortedByDate(sorted) && multiset(sorted) == multiset(input);
    rate := guess;
    ghost var target := Newton(sorted, guess, MaxIterations, npv, dnpv).rate;
    ghost var left: nat := MaxIterations;
    for i := 0 to MaxIterations
      invariant flows[..] == sorted
      invariant left == MaxIterations - i
      invariant Newton(sorted, rate, left, npv, dnpv).rate == target
    {
      var value := npv(sorted, rate);
      var slope := dnpv(sorted, rate);
      if Abs(value) < Tolerance {
        return;
      }
      if Abs(slope) < Tolerance {
        break;
      }
      ghost var previous := rate;
      NewtonStep(sorted, rate, value, slope, left, npv, dnpv);
      left := left - 1;
      rate := rate - value / slope;
      if rate < MinRate {
        rate := MinRate;
      }
      if rate > MaxRate {
        rate := MaxRate;
      }
      assert rate == Update(previous, value, slope);
    }
  }

  /** The call sites' `calculate_xirr(cash_flows) * 100 if len(cash_flows) >= 2
      else 0`, on a fresh list holding the series. */
  method XirrPercentOf(flows: seq<CashFlow>, npv: RateFunction, dnpv: RateFunction) returns (xirr: real)
    ensures xirr == XirrPercent(flows, npv, dnpv)
  {
    if |flows| >= 2 {
      var series := new CashFlow[|flows|](i requires 0 <= i < |flows| => flows[i]);
      assert series[..] == flows;
      var rate := CalculateXirr(series, DefaultGuess, npv, dnpv);
      xirr := rate * 100.0;
    } else {
      xirr := 0.0;
    }
  }
}
