/**
 * The admin products page: the status-filtered list, the badge, and the
 * approve/reject status update of one product.
 */
module ProductsPage {
  import opened Common
  import opened Rows
  import opened Schema
  import opened Store
  import opened Listing

  function ProductStatus(p: ProductRow): Option<string> { Some(p.status) }
  function ProductIdIs(id: Id): ProductRow -> bool { (p: ProductRow) => p.id == id }

  /** `fetchProducts`' query for the selected filter. */
  function FilterProducts(rows: seq<ProductRow>, filter: string): (r: seq<ProductRow>)
    ensures filter == AllFilter ==> r == rows
    ensures filter != AllFilter ==> forall p :: p in r ==> p.status == filter
    ensures forall p :: p in r ==> p in rows
    ensures forall p :: p in rows && p.status == filter ==> p in r
  {
    FilterByStatus(rows, ProductStatus, filter)
  }

  /** `.update({ status }).eq('id', id)` on the products. */
  function SetProductStatus(rows: seq<ProductRow>, id: Id, status: string): (r: seq<ProductRow>)
    ensures |r| == |rows|
    ensures forall i :: 0 <= i < |rows| && rows[i].id == id ==> r[i] == rows[i].(status := status)
    ensures forall i :: 0 <= i < |rows| && rows[i].id != id ==> r[i] == rows[i]
  {
    UpdateWhere(rows, ProductIdIs(id), (p: ProductRow) => p.(status := status))
  }

  /** `updateProductStatus`: on success only that product's status changes and the list is refetched. */
  method UpdateProductStatus(st: Store, id: Id, approved: bool, updateFails: bool) returns (refetch: bool)
    modifies st`products
    ensures refetch == !updateFails
    ensures st.products == if updateFails then old(st.products) else SetProductStatus(old(st.products), id, DecisionStatus(approved))
  {
    if updateFails {
      return false;
    }
    st.products := SetProductStatus(st.products, id, DecisionStatus(approved));
    return true;
  }

  /** Approving then rejecting the same product leaves it rejected and every other product as it was. */
  lemma LastDecisionWins(rows: seq<ProductRow>, id: Id)
    ensures SetProductStatus(SetProductStatus(rows, id, Approved), id, Rejected) == SetProductStatus(rows, id, Rejected)
  {
    var a := SetProductStatus(SetProductStatus(rows, id, Approved), id, Rejected);
    var b := SetProductStatus(rows, id, Rejected);
    assert |a| == |b|;
    forall i | 0 <= i < |a| ensures a[i] == b[i] {
      if rows[i].id == id {
        assert a[i] == rows[i].(status := Approved).(status := Rejected);
      }
    }
  }

  /** Actions are offered only on pending products, and an unknown status shows as Pending. */
  lemma ProductRowDisplay(p: ProductRow)
    ensures ShowsActions(ProductStatus(p)) <==> p.status == Pending
    ensures p.status != Approved && p.status != Rejected ==> StatusBadge(ProductStatus(p)) == PendingBadge
  {
  }
}
