/**
 * The affiliate dashboard: the user's links joined with their product, the
 * four totals over them, creating a link from a code the database generates,
 * and the "Get Link" / "Link Created" choice per product.
 *
 * The page reads the earned amount from a `total_earned` field that the
 * `affiliate_links` rows do not have (the column is `commission_earned`), so
 * in a fetched link that field is always absent.
 */
module AffiliateDashboard {
  import opened Common
  import opened Rows
  import opened Schema
  import opened Store

  /** A fetched link: the row, the joined product, and the never-present `total_earned`. */
  datatype DashboardLink = DashboardLink(row: AffiliateLinkRow, product: Option<ProductRow>, totalEarned: Option<int>)

  datatype DashboardStats = DashboardStats(totalLinks: nat, totalClicks: int, totalConversions: int, totalEarned: int)

  function ProductIdIs(id: Id): ProductRow -> bool { (p: ProductRow) => p.id == id }
  function AffiliateIs(userId: Id): AffiliateLinkRow -> bool { (l: AffiliateLinkRow) => l.affiliateId == userId }

  /** `*, product:products(...)`: the link with the product its `product_id` references. */
  function JoinProduct(l: AffiliateLinkRow, products: seq<ProductRow>): DashboardLink {
    DashboardLink(l, MaybeSingle(Where(products, ProductIdIs(l.productId))), None)
  }

  function JoinProducts(rows: seq<AffiliateLinkRow>, products: seq<ProductRow>): (r: seq<DashboardLink>)
    ensures |r| == |rows|
    ensures forall i :: 0 <= i < |rows| ==> r[i] == JoinProduct(rows[i], products)
  {
    MapRows(rows, (l: AffiliateLinkRow) => JoinProduct(l, products))
  }

  function Clicks(l: DashboardLink): int { OrZero(l.row.clicks) }
  function Conversions(l: DashboardLink): int { OrZero(l.row.conversions) }
  function Earned(l: DashboardLink): int { OrZero(l.totalEarned) }

  /** The totals set after a fetch. */
  function StatsOf(links: seq<DashboardLink>): (s: DashboardStats)
    ensures s.totalLinks == |links|
  {
    DashboardStats(|links|, SumBy(links, Clicks), SumBy(links, Conversions), SumBy(links, Earned))
  }

  /**
   * Whatever the links have earned, the dashboard's earned total is 0, since
   * every fetched link lacks the field it sums; its click and conversion
   * totals are those of the rows.
   */
  lemma {:induction false} EarnedAlwaysZero(rows: seq<AffiliateLinkRow>, products: seq<ProductRow>)
    ensures StatsOf(JoinProducts(rows, products)).totalEarned == 0
    ensures StatsOf(JoinProducts(rows, products)).totalLinks == |rows|
    ensures StatsOf(JoinProducts(rows, products)).totalClicks == SumBy(rows, (l: AffiliateLinkRow) => OrZero(l.clicks))
    ensures StatsOf(JoinProducts(rows, products)).totalConversions == SumBy(rows, (l: AffiliateLinkRow) => OrZero(l.conversions))
  {
    var links := JoinProducts(rows, products);
    SumByZero(links, Earned);
    if rows != [] {
      EarnedAlwaysZero(rows[..|rows| - 1], products);
      assert links[..|links| - 1] == JoinProducts(rows[..|rows| - 1], products);
    }
  }

  /** A link that has earned commission still shows 0 earned. */
  lemma EarnedMissedExample()
    ensures var row := AffiliateLinkRow("l", "a", "p", "c", Some(3), Some(1), Some(250));
      SumBy([row], (l: AffiliateLinkRow) => OrZero(l.commissionEarned)) == 250 &&
      StatsOf(JoinProducts([row], [])).totalEarned == 0
  {
    var row := AffiliateLinkRow("l", "a", "p", "c", Some(3), Some(1), Some(250));
    assert [row][..0] == [];
    EarnedAlwaysZero([row], []);
  }

  /** `hasExistingLink`: some fetched link's joined product has this id. */
  predicate HasExistingLink(links: seq<DashboardLink>, productId: Id) {
    exists i | 0 <= i < |links| :: links[i].product.Some? && links[i].product.value.id == productId
  }

  /** A product row offers "Get Link" exactly when no existing link is found for it. */
  predicate ShowsGetLink(links: seq<DashboardLink>, productId: Id) {
    !HasExistingLink(links, productId)
  }

  /**
   * For fetched links whose product is in the catalogue once, a product has
   * a link exactly when some row references it.
   */
  lemma ExistingLinkByRow(rows: seq<AffiliateLinkRow>, products: seq<ProductRow>, productId: Id)
    requires forall i :: 0 <= i < |rows| ==> |Where(products, ProductIdIs(rows[i].productId))| == 1
    ensures HasExistingLink(JoinProducts(rows, products), productId) <==>
      exists i | 0 <= i < |rows| :: rows[i].productId == productId
    ensures ShowsGetLink(JoinProducts(rows, products), productId) <==>
      forall i | 0 <= i < |rows| :: rows[i].productId != productId
  {
    var links := JoinProducts(rows, products);
    forall i | 0 <= i < |rows|
      ensures links[i].product.Some? && links[i].product.value.id == rows[i].productId
    {
      var w := Where(products, ProductIdIs(rows[i].productId));
      assert w[0] in w;
    }
  }

  datatype CreateOutcome = NoUser | CodeFailed | InsertFailed | Created

  /** The columns of `affiliate_links`. */
  const LinkColumns: set<string> := {"id", "affiliate_id", "product_id", "code", "clicks", "conversions", "commission_earned", "created_at"}

  /** The columns an `affiliate_links` insert must give: the rest have defaults. */
  const LinkRequiredColumns: set<string> := {"affiliate_id", "product_id", "code"}

  /** The database takes an insert that names only existing columns and every required one. */
  predicate InsertAccepted(columns: set<string>) {
    columns <= LinkColumns && LinkRequiredColumns <= columns
  }

  /** The columns the page's create writes: the code goes under `link_code`. */
  const CreateColumnsAsWritten: set<string> := {"affiliate_id", "product_id", "link_code"}

  /** The columns the create evidently means to write, the code under `code`. */
  const CreateColumns: set<string> := {"affiliate_id", "product_id", "code"}

  /** How a create attempt that writes `columns` ends. */
  function CreateOutcomeFor(columns: set<string>, user: Option<Id>, rpcCode: Option<string>, insertFails: bool): (o: CreateOutcome)
    ensures user.None? <==> o == NoUser
    ensures o == CodeFailed <==> user.Some? && rpcCode.None?
    ensures o == Created <==> user.Some? && rpcCode.Some? && InsertAccepted(columns) && !insertFails
  {
    if user.None? then NoUser
    else if rpcCode.None? then CodeFailed
    else if insertFails || !InsertAccepted(columns) then InsertFailed
    else Created
  }

  /**
   * The create as the page writes it: `link_code` is no column of the table
   * and the required `code` is missing, so once a code is obtained the insert
   * is always refused and no link is ever created.
   */
  function CreateOutcomeAsWritten(user: Option<Id>, rpcCode: Option<string>, insertFails: bool): (o: CreateOutcome)
    ensures o != Created
    ensures user.Some? && rpcCode.Some? ==> o == InsertFailed
  {
    LinkCodeRefused();
    CreateOutcomeFor(CreateColumnsAsWritten, user, rpcCode, insertFails)
  }

  /** The insert as written is refused: it names a missing column and omits a required one. */
  lemma LinkCodeRefused()
    ensures "link_code" in CreateColumnsAsWritten && "link_code" !in LinkColumns
    ensures "code" in LinkRequiredColumns && "code" !in CreateColumnsAsWritten
    ensures !InsertAccepted(CreateColumnsAsWritten)
  {
    assert "link_code" in CreateColumnsAsWritten;
  }

  /** The insert with the code under `code` is one the table takes. */
  lemma CodeColumnAccepted()
    ensures InsertAccepted(CreateColumns)
  {
  }

  /** The row the create inserts, with the counters at their column defaults. */
  function NewLink(id: Id, userId: Id, productId: Id, code: string): AffiliateLinkRow {
    AffiliateLinkRow(id, userId, productId, code, Some(0), Some(0), Some(0))
  }

  class DashboardState {
    var affiliateLinks: seq<DashboardLink>
    var availableProducts: seq<ProductRow>
    var stats: DashboardStats
    /** The product whose link is being created, if any. */
    var creatingLink: Option<Id>

    constructor ()
      ensures affiliateLinks == [] && availableProducts == [] && creatingLink == None
      ensures stats == DashboardStats(0, 0, 0, 0)
    {
      affiliateLinks, availableProducts, creatingLink := [], [], None;
      stats := DashboardStats(0, 0, 0, 0);
    }

    /** `fetchAffiliateLinks`: an error keeps the list and the totals. */
    method FetchAffiliateLinks(st: Store, user: Option<Id>, queryFails: bool)
      modifies this`affiliateLinks, this`stats
      ensures user.None? || queryFails ==> affiliateLinks == old(affiliateLinks) && stats == old(stats)
      ensures user.Some? && !queryFails ==>
        affiliateLinks == JoinProducts(Where(st.affiliateLinks, AffiliateIs(user.value)), st.products) &&
        stats == StatsOf(affiliateLinks)
    {
      if user.None? || queryFails {
        return;
      }
      var links := JoinProducts(Where(st.affiliateLinks, AffiliateIs(user.value)), st.products);
      affiliateLinks := links;
      stats := StatsOf(links);
    }

    /** `fetchAvailableProducts`: the approved products. */
    method FetchAvailableProducts(st: Store, queryFails: bool)
      modifies this`availableProducts
      ensures availableProducts == if queryFails then old(availableProducts)
                                   else Where(st.products, (p: ProductRow) => p.status == Approved)
    {
      if !queryFails {
        availableProducts := Where(st.products, (p: ProductRow) => p.status == Approved);
      }
    }

    /**
     * `createAffiliateLink`, with the code written to the `code` column: the
     * code comes from a database function (None when it fails). One link for
     * the user, the product and that code is inserted only when the code was
     * obtained; after an insert the list is refetched. Once an attempt has
     * started, `creatingLink` ends cleared.
     */
    method CreateAffiliateLink(st: Store, user: Option<Id>, productId: Id, rpcCode: Option<string>,
                               newLinkId: Id, insertFails: bool, refetchFails: bool)
      returns (outcome: CreateOutcome)
      modifies this`affiliateLinks, this`stats, this`creatingLink, st`affiliateLinks
      ensures outcome == CreateOutcomeFor(CreateColumns, user, rpcCode, insertFails)
      ensures user.None? ==> outcome == NoUser && creatingLink == old(creatingLink)
      ensures user.Some? ==> creatingLink == None
      ensures outcome == Created <==> user.Some? && rpcCode.Some? && !insertFails
      ensures user.Some? && rpcCode.None? ==> outcome == CodeFailed
      ensures outcome == Created ==>
        st.affiliateLinks == old(st.affiliateLinks) + [NewLink(newLinkId, user.value, productId, rpcCode.value)]
      ensures outcome != Created ==> st.affiliateLinks == old(st.affiliateLinks)
      ensures outcome == Created && !refetchFails ==>
        affiliateLinks == JoinProducts(Where(st.affiliateLinks, AffiliateIs(user.value)), st.products) &&
        stats == StatsOf(affiliateLinks)
      ensures outcome != Created || refetchFails ==> affiliateLinks == old(affiliateLinks) && stats == old(stats)
    {
      CodeColumnAccepted();
      if user.None? {
        return NoUser;
      }
      creatingLink := Some(productId);
      if rpcCode.None? {
        outcome := CodeFailed;
      } else if insertFails {
        outcome := InsertFailed;
      } else {
        st.affiliateLinks := st.affiliateLinks + [NewLink(newLinkId, user.value, productId, rpcCode.value)];
        FetchAffiliateLinks(st, user, refetchFails);
        outcome := Created;
      }
      creatingLink := None;
    }
  }
}
