/**
 * The vendor dashboard's totals over the vendor's own products, and its
 * status badge.
 */
module VendorDashboard {
  import opened Common
  import opened Rows
  import opened Schema
  import opened Listing
  import IndexPage

  datatype VendorStats = VendorStats(totalProducts: nat, approvedProducts: nat, pendingProducts: nat,
                                     totalSales: int, totalRevenue: int)

  function StatusIs(s: string): ProductRow -> bool { (p: ProductRow) => p.status == s }
  function Sales(p: ProductRow): int { OrZero(p.sales) }
  function Revenue(p: ProductRow): int { OrZero(p.sales) * p.price }
  function IsVendorOf(userId: Id): ProductRow -> bool { (p: ProductRow) => p.vendorId == userId }

  /** The totals `fetchProducts` sets for the fetched list. */
  function StatsOf(products: seq<ProductRow>): (s: VendorStats)
    ensures s.totalProducts == |products|
  {
    VendorStats(|products|, |Where(products, StatusIs(Approved))|, |Where(products, StatusIs(Pending))|,
                SumBy(products, Sales), SumBy(products, Revenue))
  }

  /** The totals for a vendor: their products in the store. */
  function StatsFor(st: seq<ProductRow>, userId: Id): VendorStats {
    StatsOf(Where(st, IsVendorOf(userId)))
  }

  /** Approved and pending are disjoint, so together they are at most the total. */
  lemma {:induction false} CountsWithinTotal(products: seq<ProductRow>)
    ensures StatsOf(products).approvedProducts + StatsOf(products).pendingProducts <= StatsOf(products).totalProducts
  {
    if products != [] {
      var init := products[..|products| - 1];
      CountsWithinTotal(init);
      assert products == init + [products[|products| - 1]];
      WhereAppend(init, [products[|products| - 1]], StatusIs(Approved));
      WhereAppend(init, [products[|products| - 1]], StatusIs(Pending));
    }
  }

  /** With non-negative sales and prices the sales and revenue totals are non-negative. */
  lemma TotalsNonNegative(products: seq<ProductRow>)
    requires forall i :: 0 <= i < |products| ==> OrZero(products[i].sales) >= 0 && products[i].price >= 0
    ensures StatsOf(products).totalSales >= 0 && StatsOf(products).totalRevenue >= 0
  {
    forall x | x in products ensures Sales(x) >= 0 && Revenue(x) >= 0 {
      var i :| 0 <= i < |products| && products[i] == x;
    }
    SumByNonNegative(products, Sales);
    SumByNonNegative(products, Revenue);
  }

  /**
   * The dashboard and the marketplace page's vendor view compute the same
   * figures for the same product list (the marketplace relies on JavaScript
   * reading a null `sales` as 0, the dashboard writes `|| 0`).
   */
  lemma AgreesWithMarketplace(products: seq<ProductRow>)
    ensures var s := StatsOf(products);
      var m := IndexPage.VendorStatsOf(products);
      s.totalSales == m.sales && s.totalRevenue == m.revenue &&
      s.approvedProducts == m.products && s.pendingProducts == m.pending
  {
    SumByCongruent(products, Sales, IndexPage.ProductSales);
    SumByCongruent(products, Revenue, IndexPage.ProductRevenue);
    assert StatusIs(Approved) == IndexPage.StatusIs(Approved);
    assert StatusIs(Pending) == IndexPage.StatusIs(Pending);
  }

  /** `getStatusBadge` on a product's status. */
  function ProductBadge(status: string): (b: Badge)
    ensures b == ApprovedBadge <==> status == Approved
    ensures b == RejectedBadge <==> status == Rejected
    ensures b == PendingBadge <==> status != Approved && status != Rejected
  {
    StatusBadge(Some(status))
  }
}
