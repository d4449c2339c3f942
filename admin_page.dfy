/**
 * The admin dashboard's figures: the daily analytics sorted oldest first,
 * the totals over the days shown, and the growth of the later half of the
 * period over the earlier half. Sales are in cents; growth percentages are
 * exact rationals (`real`).
 */
module AdminPage {
  import opened Schema
  import Seqs

  function DateOf(a: Analytics): int { a.date }
  function SalesOf(a: Analytics): int { a.sales }
  function OrdersOf(a: Analytics): int { a.orders }
  function CustomersOf(a: Analytics): int { a.customers }

  /** `[...dailyAnalytics].sort(...)`: a sorted copy, oldest day first. */
  function SortedDays(days: seq<Analytics>): (r: seq<Analytics>)
    ensures |r| == |days| && multiset(r) == multiset(days)
    ensures forall i, j :: 0 <= i < j < |r| ==> r[i].date <= r[j].date
    ensures forall k :: Seqs.WithKey(r, DateOf, k) == Seqs.WithKey(days, DateOf, k)
  {
    var r := Seqs.SortByKey(days, DateOf);
    assert Seqs.SortedBy(r, DateOf);
    r
  }

  /** `Math.floor(length / 2)`. */
  function Midpoint(n: nat): (m: nat)
    ensures 2 * m <= n <= 2 * m + 1
  {
    n / 2
  }

  /** `slice(0, midpoint)`: the earlier half, the shorter one for an odd count. */
  function PreviousPeriod(sorted: seq<Analytics>): (r: seq<Analytics>)
    ensures |r| == Midpoint(|sorted|) && r == sorted[..|r|]
  {
    sorted[..Midpoint(|sorted|)]
  }

  /** `slice(midpoint)`: the later half. */
  function RecentPeriod(sorted: seq<Analytics>): (r: seq<Analytics>)
    ensures |r| == |sorted| - Midpoint(|sorted|) && r == sorted[|sorted| - |r|..]
    ensures PreviousPeriod(sorted) + r == sorted
    ensures |PreviousPeriod(sorted)| <= |r| <= |PreviousPeriod(sorted)| + 1
  {
    sorted[Midpoint(|sorted|)..]
  }

  datatype Totals = Totals(sales: int, orders: int, customers: int)

  function Plus(a: Totals, b: Totals): Totals {
    Totals(a.sales + b.sales, a.orders + b.orders, a.customers + b.customers)
  }

  /** The three `reduce` sums over a list of days. */
  function TotalsOf(days: seq<Analytics>): Totals {
    Totals(Seqs.SumBy(days, SalesOf), Seqs.SumBy(days, OrdersOf), Seqs.SumBy(days, CustomersOf))
  }

  lemma TotalsSplit(a: seq<Analytics>, b: seq<Analytics>)
    ensures TotalsOf(a + b) == Plus(TotalsOf(a), TotalsOf(b))
  {
    Seqs.SumByAppend(a, b, SalesOf);
    Seqs.SumByAppend(a, b, OrdersOf);
    Seqs.SumByAppend(a, b, CustomersOf);
  }

  lemma TotalsOrderFree(a: seq<Analytics>, b: seq<Analytics>)
    requires multiset(a) == multiset(b)
    ensures TotalsOf(a) == TotalsOf(b)
  {
    Seqs.SumByPermutation(a, b, SalesOf);
    Seqs.SumByPermutation(a, b, OrdersOf);
    Seqs.SumByPermutation(a, b, CustomersOf);
  }

  /** `(recent - previous) / previous * 100`, or 0 when the earlier sum is 0. */
  function Growth(recent: int, previous: int): (g: real)
    ensures previous == 0 ==> g == 0.0
    ensures previous != 0 ==> g * previous as real == (recent - previous) as real * 100.0
    ensures previous > 0 ==> (g > 0.0 <==> recent > previous)
  {
    if previous == 0 then 0.0
    else
      var x, p := (recent - previous) as real, previous as real;
      assert (x / p) * 100.0 * p == x * 100.0;
      x / p * 100.0
  }

  datatype Dashboard = Dashboard(
    sorted: seq<Analytics>, totals: Totals,
    salesGrowth: real, ordersGrowth: real, customersGrowth: real)

  /**
   * The dashboard's summary: totals over all days shown (the sort changes
   * no sum), and each figure's growth from the earlier half to the later.
   */
  function Summarize(days: seq<Analytics>): (d: Dashboard)
    ensures d.sorted == SortedDays(days)
    ensures d.totals == TotalsOf(days)
    ensures d.totals == Plus(TotalsOf(PreviousPeriod(d.sorted)), TotalsOf(RecentPeriod(d.sorted)))
    ensures var prev, rec := TotalsOf(PreviousPeriod(d.sorted)), TotalsOf(RecentPeriod(d.sorted));
            d.salesGrowth == Growth(rec.sales, prev.sales)
            && d.ordersGrowth == Growth(rec.orders, prev.orders)
            && d.customersGrowth == Growth(rec.customers, prev.customers)
  {
    var sorted := SortedDays(days);
    var totals := TotalsOf(sorted);
    var previous, recent := TotalsOf(PreviousPeriod(sorted)), TotalsOf(RecentPeriod(sorted));
    TotalsOrderFree(sorted, days);
    TotalsSplit(PreviousPeriod(sorted), RecentPeriod(sorted));
    Dashboard(sorted, totals,
              Growth(recent.sales, previous.sales),
              Growth(recent.orders, previous.orders),
              Growth(recent.customers, previous.customers))
  }
}
