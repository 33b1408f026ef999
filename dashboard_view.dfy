/**
 The dashboard page's figures: the number of sales in the store and the
 total revenue, which falls back to 0 when the store is empty.
 */
module DashboardView {
  import opened Options
  import opened Sales

  datatype DashboardContext = DashboardContext(totalSales: nat, totalRevenue: int)

  /**
   SQL `SUM` over the amount column: NULL (here `None`) over no rows,
   otherwise the sum of the amounts.
   */
  function SumAggregate(sales: seq<Sale>): Option<int>
  {
    if sales == [] then None else Some(TotalAmount(sales))
  }

  /**
   Python's `x or 0`: a missing aggregate and a zero aggregate both become 0,
   any other value is kept. Zero is kept in value, so the result is the
   aggregate when there is one.
   */
  function OrZero(total: Option<int>): (r: int)
    ensures total.None? ==> r == 0
    ensures total.Some? ==> r == total.value
  {
    match total
    case None => 0
    case Some(t) => if t == 0 then 0 else t
  }

  /**
   The context the dashboard template receives. The third clause follows
   from the second (an empty store totals 0); it is kept to state the
   fallback of `total or 0` on the NULL sum of an empty store outright.
   */
  function GetContextData(sales: seq<Sale>): (ctx: DashboardContext)
    ensures ctx.totalSales == |sales|
    ensures ctx.totalRevenue == TotalAmount(sales)
    ensures sales == [] ==> ctx.totalRevenue == 0
  {
    DashboardContext(|sales|, OrZero(SumAggregate(sales)))
  }
}
