/**
 * The marketplace page: counting a referral click, the vendor and affiliate
 * statistics, the product list shown to buyers (with its numeric ids, search
 * and category filter) and the two product actions, generating an affiliate
 * link and adding to the cart.
 */
module IndexPage {
  import opened Common
  import opened Rows
  import opened Schema
  import opened Store

  // ---------------------------------------------------------------------------
  // Click tracking.

  function LinkCodeIs(code: string): AffiliateLinkRow -> bool { (l: AffiliateLinkRow) => l.code == code }
  function LinkIdIs(id: Id): AffiliateLinkRow -> bool { (l: AffiliateLinkRow) => l.id == id }
  function LinkClicks(l: AffiliateLinkRow): int { OrZero(l.clicks) }

  /** The update written for a click: the clicks read, null as 0, plus one. */
  function CountClick(read: AffiliateLinkRow): AffiliateLinkRow -> AffiliateLinkRow {
    (l: AffiliateLinkRow) => l.(clicks := Some(OrZero(read.clicks) + 1))
  }

  /** The links after the click-tracking effect for a `ref` parameter. */
  function ClickedLinks(links: seq<AffiliateLinkRow>, ref: Option<string>, lookupFails: bool, updateFails: bool): seq<AffiliateLinkRow> {
    if !Truthy(ref) || lookupFails || updateFails then links
    else
      var data := MaybeSingle(Where(links, LinkCodeIs(ref.value)));
      if data.None? then links else UpdateWhere(links, LinkIdIs(data.value.id), CountClick(data.value))
  }

  /** For a code matching exactly the link l, the effect is the click update of l's id. */
  lemma ClickedLinksOfKnownCode(links: seq<AffiliateLinkRow>, ref: string, l: AffiliateLinkRow)
    requires ref != "" && Where(links, LinkCodeIs(ref)) == [l]
    ensures ClickedLinks(links, Some(ref), false, false) == UpdateWhere(links, LinkIdIs(l.id), CountClick(l))
  {
  }

  /**
   * The click update of a link whose id is unique raises its clicks by one
   * (null as 0), leaves every other link as it was, and so raises the clicks
   * over all links by one.
   */
  lemma ClickCounted(links: seq<AffiliateLinkRow>, l: AffiliateLinkRow)
    requires Where(links, LinkIdIs(l.id)) == [l]
    ensures var after := UpdateWhere(links, LinkIdIs(l.id), CountClick(l));
      |after| == |links| &&
      (forall i :: 0 <= i < |links| && links[i].id != l.id ==> after[i] == links[i]) &&
      (forall i :: 0 <= i < |links| && links[i].id == l.id ==> after[i].clicks == Some(LinkClicks(l) + 1)) &&
      SumBy(after, LinkClicks) == SumBy(links, LinkClicks) + 1
  {
    SumUpdateSingle(links, LinkIdIs(l.id), CountClick(l), LinkClicks);
  }

  /**
   * The click effect as written: the update query is built inside the
   * `then` callback but neither awaited nor given a `then` of its own, and a
   * Supabase query is only sent once it is awaited, so no write happens.
   */
  function ClickedLinksAsWritten(links: seq<AffiliateLinkRow>, ref: Option<string>): seq<AffiliateLinkRow> {
    links
  }

  /** As written, a click on a known link is lost: the intended effect adds one click, the written one none. */
  lemma ClickLostAsWritten(links: seq<AffiliateLinkRow>, ref: string, l: AffiliateLinkRow)
    requires ref != "" && Where(links, LinkCodeIs(ref)) == [l] && Where(links, LinkIdIs(l.id)) == [l]
    ensures SumBy(ClickedLinksAsWritten(links, Some(ref)), LinkClicks) + 1 ==
            SumBy(ClickedLinks(links, Some(ref), false, false), LinkClicks)
  {
    ClickedLinksOfKnownCode(links, ref, l);
    ClickCounted(links, l);
  }

  /** A code that matches no link (or several) changes nothing. */
  lemma UnknownCodeNoClick(links: seq<AffiliateLinkRow>, ref: Option<string>, lookupFails: bool, updateFails: bool)
    requires !Truthy(ref) || |Where(links, LinkCodeIs(ref.value))| != 1
    ensures ClickedLinks(links, ref, lookupFails, updateFails) == links
  {
  }

  /**
   * The effect on page load: a truthy `ref` becomes the cart's affiliate code
   * and its click is counted (the update's error is ignored).
   */
  method TrackClick(st: Store, ref: Option<string>, lookupFails: bool, updateFails: bool)
    returns (affiliateCode: Option<string>)
    modifies st`affiliateLinks
    ensures affiliateCode == if Truthy(ref) then ref else None
    ensures st.affiliateLinks == ClickedLinks(old(st.affiliateLinks), ref, lookupFails, updateFails)
  {
    affiliateCode := None;
    if Truthy(ref) {
      affiliateCode := ref;
      var data := if lookupFails then None else MaybeSingle(Where(st.affiliateLinks, LinkCodeIs(ref.value)));
      if data.Some? && !updateFails {
        st.affiliateLinks := UpdateWhere(st.affiliateLinks, LinkIdIs(data.value.id), CountClick(data.value));
      }
    }
  }

  // ---------------------------------------------------------------------------
  // Statistics.

  datatype VendorStats = VendorStats(revenue: int, sales: int, products: nat, pending: nat)
  datatype AffiliateStats = AffiliateStats(commission: int, clicks: int, conversions: int, rate: int)

  /** `p.sales` in arithmetic: JavaScript adds and multiplies a null as 0. */
  function ProductSales(p: ProductRow): int { OrZero(p.sales) }
  function ProductRevenue(p: ProductRow): int { OrZero(p.sales) * p.price }
  function StatusIs(s: string): ProductRow -> bool { (p: ProductRow) => p.status == s }

  function VendorStatsOf(rows: seq<ProductRow>): VendorStats {
    VendorStats(SumBy(rows, ProductRevenue), SumBy(rows, ProductSales),
                |Where(rows, StatusIs(Approved))|, |Where(rows, StatusIs(Pending))|)
  }

  /** The two counts are of disjoint sets of the vendor's products. */
  lemma {:induction false} VendorCountsWithinTotal(rows: seq<ProductRow>)
    ensures VendorStatsOf(rows).products + VendorStatsOf(rows).pending <= |rows|
  {
    if rows != [] {
      VendorCountsWithinTotal(rows[1..]);
    }
  }

  /** Adding a product adds exactly its own sales, revenue and status to the stats. */
  lemma VendorStatsAppend(rows: seq<ProductRow>, p: ProductRow)
    ensures var before := VendorStatsOf(rows);
      var after := VendorStatsOf(rows + [p]);
      after.sales == before.sales + OrZero(p.sales) &&
      after.revenue == before.revenue + OrZero(p.sales) * p.price &&
      after.products == before.products + (if p.status == Approved then 1 else 0) &&
      after.pending == before.pending + (if p.status == Pending then 1 else 0)
  {
    assert (rows + [p])[..|rows|] == rows;
    WhereAppend(rows, [p], StatusIs(Approved));
    WhereAppend(rows, [p], StatusIs(Pending));
  }

  function LinkConversions(l: AffiliateLinkRow): int { OrZero(l.conversions) }
  function LinkEarned(l: AffiliateLinkRow): int { OrZero(l.commissionEarned) }

  /** Conversion rate in percent, rounded; no clicks gives 0. */
  function ConversionRate(conversions: int, clicks: int): int {
    if clicks > 0 then JsRound(100 * conversions, clicks) else 0
  }

  function AffiliateStatsOf(links: seq<AffiliateLinkRow>): AffiliateStats {
    var clicks := SumBy(links, LinkClicks);
    var conversions := SumBy(links, LinkConversions);
    AffiliateStats(SumBy(links, LinkEarned), clicks, conversions, ConversionRate(conversions, clicks))
  }

  /** With no more conversions than clicks the rate is a percentage between 0 and 100. */
  lemma ConversionRateBounds(conversions: int, clicks: int)
    requires 0 <= conversions <= clicks
    ensures 0 <= ConversionRate(conversions, clicks) <= 100
    ensures conversions == clicks && clicks > 0 ==> ConversionRate(conversions, clicks) == 100
    ensures conversions == 0 ==> ConversionRate(conversions, clicks) == 0
  {
    if clicks > 0 {
      var r := JsRound(100 * conversions, clicks);
      var d := 2 * clicks;
      JsRoundIsNearest(100 * conversions, clicks);
      assert d * r <= 200 * conversions + clicks < d * r + d;
      if r > 100 {
        MulMonotone(101, r, d);
      }
      if r < 0 {
        MulMonotone(r, -1, d);
      }
      if conversions == clicks && r < 100 {
        MulMonotone(r, 99, d);
      }
      if conversions == 0 && r > 0 {
        MulMonotone(1, r, d);
      }
    }
  }

  // ---------------------------------------------------------------------------
  // The product list.

  /** The buyer-facing product (`Product` in the page's types). */
  datatype MarketProduct = MarketProduct(
    id: Option<nat>,
    title: string,
    description: string,
    price: int,
    commission: int,
    category: string,
    image: string,
    images: seq<string>,
    imageCount: nat,
    status: string,
    sales: Option<int>)

  const PlaceholderImage: string := "https://images.unsplash.com/photo-1560472354-b33ff0c44a43?w=800&q=80"

  /** `parseInt(id.substring(0, 8), 16)`, None standing for NaN. */
  function NumericId(id: Id): Option<nat> {
    ParseHex(Take(id, 8))
  }

  /** `===` on numbers: NaN equals nothing. */
  predicate SameNumber(a: Option<nat>, b: Option<nat>) {
    a.Some? && b.Some? && a.value == b.value
  }

  /** `image_urls?.length || (image_url ? 1 : 0)`. */
  function ImageCount(p: ProductRow): (n: nat)
    ensures p.imageUrls.Some? && |p.imageUrls.value| > 0 ==> n == |p.imageUrls.value|
    ensures (p.imageUrls.None? || p.imageUrls.value == []) ==> n == (if Truthy(p.imageUrl) then 1 else 0)
  {
    if p.imageUrls.Some? && |p.imageUrls.value| > 0 then |p.imageUrls.value|
    else if Truthy(p.imageUrl) then 1 else 0
  }

  function FormatProduct(p: ProductRow): MarketProduct {
    MarketProduct(NumericId(p.id), p.title,
      if Truthy(p.description) then p.description.value else "",
      p.price, p.commission, p.category,
      if Truthy(p.imageUrl) then p.imageUrl.value else PlaceholderImage,
      if p.imageUrls.Some? then p.imageUrls.value else [],
      ImageCount(p), p.status, p.sales)
  }

  function FormatProducts(rows: seq<ProductRow>): (r: seq<MarketProduct>)
    ensures |r| == |rows|
    ensures forall i :: 0 <= i < |rows| ==> r[i] == FormatProduct(rows[i])
  {
    MapRows(rows, (p: ProductRow) => FormatProduct(p))
  }

  function RawIdIs(productId: Option<nat>): ProductRow -> bool {
    (p: ProductRow) => SameNumber(NumericId(p.id), productId)
  }

  /** `rawProducts.find(...)`: the first raw product whose id prefix parses to productId. */
  function FindRaw(raws: seq<ProductRow>, productId: Option<nat>): Option<ProductRow> {
    Find(raws, RawIdIs(productId))
  }

  /**
   * Ids are compared through their first 8 characters only: when two raw
   * products share that prefix, a lookup never returns the later one.
   */
  lemma SharedPrefixShadows(raws: seq<ProductRow>, i: nat, j: nat)
    requires i < j < |raws| && Take(raws[i].id, 8) == Take(raws[j].id, 8)
    requires NumericId(raws[j].id).Some?
    ensures var k := FirstIndex(raws, RawIdIs(NumericId(raws[j].id)));
      k.Some? && k.value <= i &&
      FindRaw(raws, NumericId(raws[j].id)) == Some(raws[k.value])
  {
    assert RawIdIs(NumericId(raws[j].id))(raws[i]);
  }

  /** `parseInt("0000000a", 16)` is 10. */
  lemma ParseHexSample()
    ensures ParseHex("0000000a") == Some(10)
  {
    var p := "0000000a";
    assert HexPrefixLength(p) == 8;
    assert p[..8] == p;
    assert p[..7] == "0000000";
    assert HexValue("0000000") == 0 by {
      assert "0000000"[..6] == "000000";
      assert "000000"[..5] == "00000";
      assert "00000"[..4] == "0000";
      assert "0000"[..3] == "000";
      assert "000"[..2] == "00";
      assert "00"[..1] == "0";
      assert "0"[..0] == "";
    }
  }

  /** Two different uuids with the same first 8 characters get the same numeric id. */
  lemma PrefixCollision()
    ensures NumericId("0000000a-0000-0000-0000-000000000001") == NumericId("0000000a-0000-0000-0000-000000000002")
    ensures NumericId("0000000a-0000-0000-0000-000000000001") == Some(10)
  {
    var u1, u2 := "0000000a-0000-0000-0000-000000000001", "0000000a-0000-0000-0000-000000000002";
    assert u1[..8] == "0000000a";
    assert u2[..8] == "0000000a";
    ParseHexSample();
  }

  /** `['All', ...new Set(products.map(p => p.category))]`. */
  function Categories(products: seq<MarketProduct>): seq<string> {
    ["All"] + Distinct(CategoriesOf(products))
  }

  function CategoriesOf(products: seq<MarketProduct>): (r: seq<string>)
    ensures |r| == |products|
    ensures forall i :: 0 <= i < |products| ==> r[i] == products[i].category
  {
    MapRows(products, (p: MarketProduct) => p.category)
  }

  /** The category list starts with All and lists each category once, in first-seen order. */
  lemma CategoriesFirstSeen(products: seq<MarketProduct>)
    ensures var c := Categories(products);
      c[0] == "All" &&
      (forall i :: 0 <= i < |products| ==> products[i].category in c[1..]) &&
      (forall x :: x in c[1..] ==> x in CategoriesOf(products)) &&
      (forall i, j :: 1 <= i < j < |c| ==> c[i] != c[j]) &&
      (forall i, j :: 1 <= i < j < |c| ==> IndexOf(CategoriesOf(products), c[i]) < IndexOf(CategoriesOf(products), c[j]))
  {
    var cats := CategoriesOf(products);
    var c := Categories(products);
    assert c[1..] == Distinct(cats);
    DistinctFirstSeenOrder(cats);
    forall i | 0 <= i < |products| ensures products[i].category in c[1..] {
      assert cats[i] in cats;
    }
  }

  /** The search and category test of `filteredProducts`. */
  predicate MatchesFilter(p: MarketProduct, searchTerm: string, selectedCategory: string) {
    (Includes(ToLower(p.title), ToLower(searchTerm)) || Includes(ToLower(p.description), ToLower(searchTerm))) &&
    (selectedCategory == "All" || p.category == selectedCategory)
  }

  function Matcher(searchTerm: string, selectedCategory: string): MarketProduct -> bool {
    (p: MarketProduct) => MatchesFilter(p, searchTerm, selectedCategory)
  }

  function FilteredProducts(products: seq<MarketProduct>, searchTerm: string, selectedCategory: string): (r: seq<MarketProduct>)
    ensures forall p :: p in r ==> p in products && MatchesFilter(p, searchTerm, selectedCategory)
    ensures forall p :: p in products && MatchesFilter(p, searchTerm, selectedCategory) ==> p in r
  {
    Where(products, Matcher(searchTerm, selectedCategory))
  }

  /** Filtering keeps the products' order: it distributes over concatenation. */
  lemma FilterKeepsOrder(a: seq<MarketProduct>, b: seq<MarketProduct>, searchTerm: string, selectedCategory: string)
    ensures FilteredProducts(a + b, searchTerm, selectedCategory) ==
      FilteredProducts(a, searchTerm, selectedCategory) + FilteredProducts(b, searchTerm, selectedCategory)
  {
    WhereAppend(a, b, Matcher(searchTerm, selectedCategory));
  }

  /** The initial filters (empty search, category All) show every product. */
  lemma EmptySearchShowsAll(products: seq<MarketProduct>)
    ensures FilteredProducts(products, "", "All") == products
  {
    forall p | p in products ensures Matcher("", "All")(p) {
      assert OccursAt(ToLower(p.title), ToLower(""), 0);
    }
    WhereAll(products, Matcher("", "All"));
  }

  // ---------------------------------------------------------------------------
  // Page state and actions.

  datatype GenerateOutcome = NotSignedIn | ProductNotFound | CopiedExisting(code: string) | Generated(code: string) | GenerateFailed

  /** What `addToCart` receives. */
  datatype CartAddition = CartAddition(id: Id, title: string, price: int, image: string, commission: int, vendorId: Id)

  /** The code of a new link: user prefix, product prefix and a time stamp in base 36. */
  function LinkCode(userId: Id, productId: Id, stamp: string): string {
    Take(userId, 6) + "_" + Take(productId, 6) + "_" + stamp
  }

  function ProductLinkIs(productId: Id): AffiliateLinkRow -> bool { (l: AffiliateLinkRow) => l.productId == productId }

  class MarketplaceState {
    var rawProducts: seq<ProductRow>
    var products: seq<MarketProduct>
    var affiliateLinks: seq<AffiliateLinkRow>
    var vendorStats: VendorStats
    var affiliateStats: AffiliateStats

    /** The buyer list is the formatting of the raw rows. */
    predicate Valid()
      reads this
    {
      products == FormatProducts(rawProducts)
    }

    constructor ()
      ensures Valid()
      ensures rawProducts == [] && affiliateLinks == []
      ensures vendorStats == VendorStats(0, 0, 0, 0) && affiliateStats == AffiliateStats(0, 0, 0, 0)
    {
      rawProducts, products, affiliateLinks := [], [], [];
      vendorStats, affiliateStats := VendorStats(0, 0, 0, 0), AffiliateStats(0, 0, 0, 0);
    }

    /** The vendor branch of `fetchUserData`: the vendor's own products and their stats. */
    method FetchVendorData(st: Store, userId: Id, queryFails: bool)
      requires Valid()
      modifies this
      ensures Valid()
      ensures affiliateLinks == old(affiliateLinks) && affiliateStats == old(affiliateStats)
      ensures queryFails ==> rawProducts == old(rawProducts) && vendorStats == old(vendorStats)
      ensures !queryFails ==>
        rawProducts == Where(st.products, (p: ProductRow) => p.vendorId == userId) &&
        vendorStats == VendorStatsOf(rawProducts)
    {
      if !queryFails {
        var vendorProducts := Where(st.products, (p: ProductRow) => p.vendorId == userId);
        rawProducts := vendorProducts;
        products := FormatProducts(vendorProducts);
        vendorStats := VendorStatsOf(vendorProducts);
      }
    }

    /** The other branch: approved products for the list, then the user's links and their stats. */
    method FetchAffiliateData(st: Store, userId: Id, productsFail: bool, linksFail: bool)
      requires Valid()
      modifies this
      ensures Valid()
      ensures vendorStats == old(vendorStats)
      ensures productsFail ==> rawProducts == old(rawProducts)
      ensures !productsFail ==> rawProducts == Where(st.products, StatusIs(Approved))
      ensures linksFail ==> affiliateLinks == old(affiliateLinks) && affiliateStats == old(affiliateStats)
      ensures !linksFail ==>
        affiliateLinks == Where(st.affiliateLinks, (l: AffiliateLinkRow) => l.affiliateId == userId) &&
        affiliateStats == AffiliateStatsOf(affiliateLinks)
    {
      if !productsFail {
        var approvedProducts := Where(st.products, StatusIs(Approved));
        rawProducts := approvedProducts;
        products := FormatProducts(approvedProducts);
      }
      if !linksFail {
        var links := Where(st.affiliateLinks, (l: AffiliateLinkRow) => l.affiliateId == userId);
        affiliateLinks := links;
        affiliateStats := AffiliateStatsOf(links);
      }
    }

    /**
     * `handleGenerateLink`: nothing is inserted when the product is not found
     * or the user already holds a link for it; otherwise one link for the
     * user and the product is inserted and appended to the local list.
     */
    method HandleGenerateLink(st: Store, user: Option<Id>, productId: Option<nat>, stamp: string,
                              newLinkId: Id, insertFails: bool)
      returns (outcome: GenerateOutcome)
      requires Valid()
      modifies this`affiliateLinks, st`affiliateLinks
      ensures Valid()
      ensures user.None? ==> outcome == NotSignedIn
      ensures user.Some? && FindRaw(rawProducts, productId).None? ==> outcome == ProductNotFound
      ensures outcome.Generated? <==>
        user.Some? && FindRaw(rawProducts, productId).Some? &&
        Find(old(affiliateLinks), ProductLinkIs(FindRaw(rawProducts, productId).value.id)).None? && !insertFails
      ensures outcome.Generated? ==>
        var raw := FindRaw(rawProducts, productId).value;
        var row := AffiliateLinkRow(newLinkId, user.value, raw.id, LinkCode(user.value, raw.id, stamp), Some(0), Some(0), Some(0));
        outcome.code == row.code &&
        st.affiliateLinks == old(st.affiliateLinks) + [row] && affiliateLinks == old(affiliateLinks) + [row]
      ensures !outcome.Generated? ==> st.affiliateLinks == old(st.affiliateLinks) && affiliateLinks == old(affiliateLinks)
    {
      if user.None? {
        return NotSignedIn;
      }
      var rawProduct := FindRaw(rawProducts, productId);
      if rawProduct.None? {
        return ProductNotFound;
      }
      var existingLink := Find(affiliateLinks, ProductLinkIs(rawProduct.value.id));
      if existingLink.Some? {
        return CopiedExisting(existingLink.value.code);
      }
      var code := LinkCode(user.value, rawProduct.value.id, stamp);
      if insertFails {
        return GenerateFailed;
      }
      var data := AffiliateLinkRow(newLinkId, user.value, rawProduct.value.id, code, Some(0), Some(0), Some(0));
      st.affiliateLinks := st.affiliateLinks + [data];
      affiliateLinks := affiliateLinks + [data];
      return Generated(code);
    }

    /** `handleAddToCart`: the listed product and its raw row are both needed. */
    method HandleAddToCart(productId: Option<nat>) returns (added: Option<CartAddition>)
      requires Valid()
      ensures added.Some? <==>
        Find(products, (p: MarketProduct) => SameNumber(p.id, productId)).Some? && FindRaw(rawProducts, productId).Some?
      ensures added.Some? ==>
        var product := Find(products, (p: MarketProduct) => SameNumber(p.id, productId)).value;
        var raw := FindRaw(rawProducts, productId).value;
        added.value == CartAddition(raw.id, product.title, product.price, product.image, product.commission, raw.vendorId)
    {
      var product := Find(products, (p: MarketProduct) => SameNumber(p.id, productId));
      var rawProduct := FindRaw(rawProducts, productId);
      if product.Some? && rawProduct.Some? {
        var p, r := product.value, rawProduct.value;
        return Some(CartAddition(r.id, p.title, p.price, p.image, p.commission, r.vendorId));
      }
      return None;
    }
  }
}
