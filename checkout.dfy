/**
 * Checkout settlement (CheckoutModal's submit handler): resolve the referral
 * code to a link, write the order and its items, credit the link, the
 * affiliate's wallet and the commission ledger, then write one `sale`
 * transaction per cart line and clear the cart.
 *
 * `Settle` states the whole effect of one submission on the tables;
 * `HandleSubmit` performs it step by step on a `Store` and is proved to agree
 * with it. The lemmas state what the settlement promises.
 */
module Checkout {
  import opened Common
  import opened Rows
  import opened Schema
  import opened Store

  /** A cart line as the cart hook hands it over (price and commission rate per unit). */
  datatype CartItem = CartItem(id: Id, title: string, price: int, quantity: int, commission: int, vendorId: Id)

  datatype CheckoutForm = CheckoutForm(name: string, email: string, phone: string)

  /**
   * Which remote calls fail. A failing read returns no data; a failing write
   * returns an error, which only the order and items inserts look at.
   * `saleInsertFails[i]` is the outcome of the i-th vendor insert.
   */
  datatype CheckoutFaults = CheckoutFaults(
    codeLookupFails: bool,
    orderInsertFails: bool,
    itemsInsertFails: bool,
    linkReadFails: bool,
    linkUpdateFails: bool,
    profileReadFails: bool,
    walletUpdateFails: bool,
    commissionInsertFails: bool,
    saleInsertFails: seq<bool>)

  /** The faults of a run in which every call succeeds. */
  function NoFaults(): CheckoutFaults {
    CheckoutFaults(false, false, false, false, false, false, false, false, [])
  }

  datatype CheckoutOutcome = MissingFields | OrderFailed | ItemsFailed | Placed

  datatype Settlement = Settlement(outcome: CheckoutOutcome, tables: Tables)

  /** Selectors used by the `.eq(...)` filters. */
  function LinkCodeIs(code: string): AffiliateLinkRow -> bool { (l: AffiliateLinkRow) => l.code == code }
  function LinkIdIs(id: Id): AffiliateLinkRow -> bool { (l: AffiliateLinkRow) => l.id == id }
  function ProfileIdIs(id: Id): ProfileRow -> bool { (p: ProfileRow) => p.id == id }

  /** Commission on ONE unit of a line: round(price * commission / 100). */
  function UnitCommission(item: CartItem): int {
    JsRound(item.price * item.commission, 100)
  }

  function OrderItemFor(orderId: Id, item: CartItem): OrderItemRow {
    OrderItemRow(orderId, item.id, item.quantity, item.price, UnitCommission(item))
  }

  /** One order item per cart line, in cart order. */
  function OrderItemsFor(orderId: Id, items: seq<CartItem>): (r: seq<OrderItemRow>)
    ensures |r| == |items|
    ensures forall i :: 0 <= i < |items| ==> r[i] == OrderItemFor(orderId, items[i])
  {
    MapRows(items, (item: CartItem) => OrderItemFor(orderId, item))
  }

  /** The commission a written order item stands for: per-unit amount times quantity. */
  function LineCommission(row: OrderItemRow): int {
    row.commissionAmount * row.quantity
  }

  function TotalCommission(rows: seq<OrderItemRow>): int {
    SumBy(rows, LineCommission)
  }

  /** The commission of a cart line as the order items record it. */
  function CartLineCommission(item: CartItem): int {
    UnitCommission(item) * item.quantity
  }

  /** Vendor's share of a line, rounded over the whole line. */
  function VendorAmount(item: CartItem): int {
    item.price * item.quantity - JsRound(item.price * item.commission * item.quantity, 100)
  }

  function SaleTransaction(orderId: Id, item: CartItem): TransactionRow {
    TransactionRow(item.vendorId, "sale", VendorAmount(item),
      Some("Sale of " + item.title + " x" + IntToString(item.quantity)), Some(orderId))
  }

  function CommissionTransaction(orderId: Id, affiliateId: Id, total: int): TransactionRow {
    TransactionRow(affiliateId, "commission", total,
      Some("Commission from order #" + Take(orderId, 8)), Some(orderId))
  }

  /** Whether the i-th entry of a fault list is set (missing entries succeed). */
  predicate Fails(flags: seq<bool>, i: nat) {
    i < |flags| && flags[i]
  }

  /** The `sale` rows the vendor loop writes for the lines of items whose insert succeeds. */
  function SaleTransactions(orderId: Id, items: seq<CartItem>, fails: seq<bool>): seq<TransactionRow> {
    if items == [] then []
    else
      var last := if Fails(fails, |items| - 1) then [] else [SaleTransaction(orderId, items[|items| - 1])];
      SaleTransactions(orderId, items[..|items| - 1], fails) + last
  }

  /**
   * The affiliate link id the order is attributed to: a truthy code whose
   * `.maybeSingle()` lookup finds exactly one link gives that link's id.
   */
  function ResolveLinkId(links: seq<AffiliateLinkRow>, code: Option<string>, lookupFails: bool): (r: Option<Id>)
    ensures r.Some? <==> Truthy(code) && !lookupFails && |Where(links, LinkCodeIs(code.value))| == 1
    ensures r.Some? ==> r.value == Where(links, LinkCodeIs(code.value))[0].id
  {
    if !Truthy(code) || lookupFails then None
    else
      var linkData := MaybeSingle(Where(links, LinkCodeIs(code.value)));
      if linkData.Some? then Some(linkData.value.id) else None
  }

  /** `.eq('id', id).single()` on the links. */
  function LinkById(links: seq<AffiliateLinkRow>, id: Id): Option<AffiliateLinkRow> {
    MaybeSingle(Where(links, LinkIdIs(id)))
  }

  function ProfileById(profiles: seq<ProfileRow>, id: Id): Option<ProfileRow> {
    MaybeSingle(Where(profiles, ProfileIdIs(id)))
  }

  /** The update written to the link: counters read from `current`, null read as 0. */
  function ConvertLink(current: AffiliateLinkRow, total: int): AffiliateLinkRow -> AffiliateLinkRow {
    (l: AffiliateLinkRow) => l.(conversions := Some(OrZero(current.conversions) + 1),
            commissionEarned := Some(OrZero(current.commissionEarned) + total))
  }

  function ConvertedLinks(links: seq<AffiliateLinkRow>, id: Id, current: AffiliateLinkRow, total: int): seq<AffiliateLinkRow> {
    UpdateWhere(links, LinkIdIs(id), ConvertLink(current, total))
  }

  /** The wallet update: the balance read from `profile`, null read as 0, plus the commission. */
  function Credit(profile: ProfileRow, total: int): ProfileRow -> ProfileRow {
    (p: ProfileRow) => p.(walletBalance := Some(OrZero(profile.walletBalance) + total))
  }

  function CreditedProfiles(profiles: seq<ProfileRow>, id: Id, profile: ProfileRow, total: int): seq<ProfileRow> {
    UpdateWhere(profiles, ProfileIdIs(id), Credit(profile, total))
  }

  /** The affiliate's share of a placed order: link counters, wallet and ledger. */
  function Attribute(t: Tables, linkId: Id, orderId: Id, total: int, f: CheckoutFaults): Tables {
    var current := if f.linkReadFails then None else LinkById(t.affiliateLinks, linkId);
    if current.None? then t
    else
      var cur := current.value;
      var links := if f.linkUpdateFails then t.affiliateLinks else ConvertedLinks(t.affiliateLinks, linkId, cur, total);
      var profile := if f.profileReadFails then None else ProfileById(t.profiles, cur.affiliateId);
      var profiles := if profile.Some? && !f.walletUpdateFails then CreditedProfiles(t.profiles, cur.affiliateId, profile.value, total) else t.profiles;
      var txs := if f.commissionInsertFails then t.transactions else t.transactions + [CommissionTransaction(orderId, cur.affiliateId, total)];
      t.(affiliateLinks := links, profiles := profiles, transactions := txs)
  }

  /** The whole effect of one checkout submission. */
  function Settle(t: Tables, form: CheckoutForm, items: seq<CartItem>, totalPrice: int,
                  code: Option<string>, orderId: Id, f: CheckoutFaults): (s: Settlement)
    ensures s.outcome == MissingFields <==> form.name == "" || form.email == ""
    ensures s.outcome in {MissingFields, OrderFailed} ==> s.tables == t
    ensures s.outcome == ItemsFailed ==>
      s.tables == t.(orders := t.orders + [OrderRow(orderId, form.name, form.email, totalPrice, Completed,
                                                    ResolveLinkId(t.affiliateLinks, code, f.codeLookupFails))])
    ensures s.outcome == Placed <==> form.name != "" && form.email != "" && !f.orderInsertFails && !f.itemsInsertFails
  {
    if form.name == "" || form.email == "" then Settlement(MissingFields, t)
    else
      var linkId := ResolveLinkId(t.affiliateLinks, code, f.codeLookupFails);
      if f.orderInsertFails then Settlement(OrderFailed, t)
      else
        var t1 := t.(orders := t.orders + [OrderRow(orderId, form.name, form.email, totalPrice, Completed, linkId)]);
        var rows := OrderItemsFor(orderId, items);
        if f.itemsInsertFails then Settlement(ItemsFailed, t1)
        else
          var t2 := t1.(orderItems := t1.orderItems + rows);
          var t3 := if Truthy(linkId) then Attribute(t2, linkId.value, orderId, TotalCommission(rows), f) else t2;
          Settlement(Placed, t3.(transactions := t3.transactions + SaleTransactions(orderId, items, f.saleInsertFails)))
  }

  /** The submit handler, step by step on the store; `cartCleared` reports `clearCart()`. */
  method HandleSubmit(st: Store, form: CheckoutForm, items: seq<CartItem>, totalPrice: int,
                      code: Option<string>, orderId: Id, f: CheckoutFaults)
    returns (outcome: CheckoutOutcome, cartCleared: bool)
    modifies st
    ensures Settlement(outcome, st.Snapshot()) == Settle(old(st.Snapshot()), form, items, totalPrice, code, orderId, f)
    ensures cartCleared <==> outcome == Placed
  {
    if form.name == "" || form.email == "" {
      return MissingFields, false;
    }
    var affiliateLinkId: Option<Id> := None;
    if Truthy(code) {
      var linkData := if f.codeLookupFails then None else MaybeSingle(Where(st.affiliateLinks, LinkCodeIs(code.value)));
      if linkData.Some? {
        affiliateLinkId := Some(linkData.value.id);
      }
    }
    if f.orderInsertFails {
      return OrderFailed, false;
    }
    st.orders := st.orders + [OrderRow(orderId, form.name, form.email, totalPrice, Completed, affiliateLinkId)];
    var orderItems := OrderItemsFor(orderId, items);
    if f.itemsInsertFails {
      return ItemsFailed, false;
    }
    st.orderItems := st.orderItems + orderItems;
    if Truthy(affiliateLinkId) {
      var totalCommission := TotalCommission(orderItems);
      CreditAffiliate(st, affiliateLinkId.value, orderId, totalCommission, f);
    }
    RecordSales(st, orderId, items, f.saleInsertFails);
    return Placed, true;
  }

  /** Link counters, wallet and commission ledger of an attributed order (`if (currentLink)`). */
  method CreditAffiliate(st: Store, linkId: Id, orderId: Id, totalCommission: int, f: CheckoutFaults)
    modifies st
    ensures st.Snapshot() == Attribute(old(st.Snapshot()), linkId, orderId, totalCommission, f)
  {
    var currentLink := if f.linkReadFails then None else LinkById(st.affiliateLinks, linkId);
    if currentLink.Some? {
      var cur := currentLink.value;
      if !f.linkUpdateFails {
        st.affiliateLinks := ConvertedLinks(st.affiliateLinks, linkId, cur, totalCommission);
      }
      var profile := if f.profileReadFails then None else ProfileById(st.profiles, cur.affiliateId);
      if profile.Some? && !f.walletUpdateFails {
        st.profiles := CreditedProfiles(st.profiles, cur.affiliateId, profile.value, totalCommission);
      }
      if !f.commissionInsertFails {
        st.transactions := st.transactions + [CommissionTransaction(orderId, cur.affiliateId, totalCommission)];
      }
    }
  }

  /** The vendor loop: one `sale` insert per cart line, each failure ignored. */
  method RecordSales(st: Store, orderId: Id, items: seq<CartItem>, fails: seq<bool>)
    modifies st
    ensures st.Snapshot() == old(st.Snapshot()).(transactions := old(st.transactions) + SaleTransactions(orderId, items, fails))
  {
    ghost var before := st.Snapshot();
    var i := 0;
    while i < |items|
      invariant 0 <= i <= |items|
      invariant st.Snapshot() == before.(transactions := st.transactions)
      invariant st.transactions == before.transactions + SaleTransactions(orderId, items[..i], fails)
    {
      var item := items[i];
      ghost var sales := SaleTransactions(orderId, items[..i], fails);
      assert items[..i + 1][..i] == items[..i];
      if !Fails(fails, i) {
        assert SaleTransactions(orderId, items[..i + 1], fails) == sales + [SaleTransaction(orderId, item)];
        st.transactions := st.transactions + [SaleTransaction(orderId, item)];
      } else {
        assert SaleTransactions(orderId, items[..i + 1], fails) == sales;
      }
      i := i + 1;
    }
    assert items[..i] == items;
  }

  // ---------------------------------------------------------------------------
  // What a settlement promises.

  /** The link a code resolves to, when it resolves to a truthy id. */
  function ResolvedLink(t: Tables, code: Option<string>, f: CheckoutFaults): Option<AffiliateLinkRow> {
    var linkId := ResolveLinkId(t.affiliateLinks, code, f.codeLookupFails);
    if Truthy(linkId) && !f.linkReadFails then LinkById(t.affiliateLinks, linkId.value) else None
  }

  /** The affiliate whose wallet and ledger a settlement may touch. */
  function CreditedAffiliate(t: Tables, code: Option<string>, f: CheckoutFaults): Option<Id> {
    var link := ResolvedLink(t, code, f);
    if link.Some? then Some(link.value.affiliateId) else None
  }

  /** A written order item carries its cart line's product, price, quantity and one-unit commission. */
  lemma OrderItemsMatchCart(orderId: Id, items: seq<CartItem>)
    ensures |OrderItemsFor(orderId, items)| == |items|
    ensures forall i :: 0 <= i < |items| ==>
      var row := OrderItemsFor(orderId, items)[i];
      row.orderId == orderId && row.productId == items[i].id && row.price == items[i].price &&
      row.quantity == items[i].quantity && row.commissionAmount == JsRound(items[i].price * items[i].commission, 100)
  {
  }

  /** An order that is placed is written as completed, for totalPrice, with exactly one item per cart line. */
  lemma PlacedOrderWritten(t: Tables, form: CheckoutForm, items: seq<CartItem>, totalPrice: int,
                           code: Option<string>, orderId: Id, f: CheckoutFaults)
    requires Settle(t, form, items, totalPrice, code, orderId, f).outcome == Placed
    ensures var s := Settle(t, form, items, totalPrice, code, orderId, f).tables;
      s.orders == t.orders + [OrderRow(orderId, form.name, form.email, totalPrice, Completed,
                                       ResolveLinkId(t.affiliateLinks, code, f.codeLookupFails))] &&
      s.orderItems == t.orderItems + OrderItemsFor(orderId, items)
  {
  }

  /** The total commission is the sum over the cart of the one-unit commission times the quantity. */
  lemma {:induction false} TotalCommissionOfCart(orderId: Id, items: seq<CartItem>)
    ensures TotalCommission(OrderItemsFor(orderId, items)) == SumBy(items, CartLineCommission)
  {
    if items != [] {
      var init := items[..|items| - 1];
      TotalCommissionOfCart(orderId, init);
      var rows := OrderItemsFor(orderId, items);
      assert rows[..|rows| - 1] == OrderItemsFor(orderId, init);
    }
  }

  /** Without a resolved link the order is unattributed and no link, wallet or commission row changes. */
  lemma UnattributedSettlement(t: Tables, form: CheckoutForm, items: seq<CartItem>, totalPrice: int,
                               code: Option<string>, orderId: Id, f: CheckoutFaults)
    requires !Truthy(code) || f.codeLookupFails || |Where(t.affiliateLinks, LinkCodeIs(code.value))| != 1
    ensures var s := Settle(t, form, items, totalPrice, code, orderId, f);
      s.tables.affiliateLinks == t.affiliateLinks &&
      s.tables.profiles == t.profiles &&
      (s.outcome == Placed ==>
        s.tables.orders[|s.tables.orders| - 1].affiliateLinkId == None &&
        s.tables.transactions == t.transactions + SaleTransactions(orderId, items, f.saleInsertFails))
  {
  }

  /**
   * Whatever the outcome, a checkout writes only orders, order items,
   * affiliate links, profiles and transactions: products, withdrawals,
   * applications, roles and accounts are left as they were.
   */
  lemma SettleTouchesOnlyCheckoutTables(t: Tables, form: CheckoutForm, items: seq<CartItem>, totalPrice: int,
                                        code: Option<string>, orderId: Id, f: CheckoutFaults)
    ensures var s := Settle(t, form, items, totalPrice, code, orderId, f).tables;
      s.products == t.products && s.withdrawals == t.withdrawals && s.applications == t.applications &&
      s.userRoles == t.userRoles && s.authUsers == t.authUsers
  {
  }

  /** A placed settlement is the order, its items, the affiliate's share if attributed, then the sales. */
  lemma PlacedSettlement(t: Tables, form: CheckoutForm, items: seq<CartItem>, totalPrice: int,
                         code: Option<string>, orderId: Id, f: CheckoutFaults)
    requires Settle(t, form, items, totalPrice, code, orderId, f).outcome == Placed
    ensures var linkId := ResolveLinkId(t.affiliateLinks, code, f.codeLookupFails);
      var t2 := t.(orders := t.orders + [OrderRow(orderId, form.name, form.email, totalPrice, Completed, linkId)],
                   orderItems := t.orderItems + OrderItemsFor(orderId, items));
      var t3 := if Truthy(linkId) then Attribute(t2, linkId.value, orderId, SumBy(items, CartLineCommission), f) else t2;
      Settle(t, form, items, totalPrice, code, orderId, f).tables ==
        t3.(transactions := t3.transactions + SaleTransactions(orderId, items, f.saleInsertFails))
  {
    TotalCommissionOfCart(orderId, items);
  }

  function LinkConversions(l: AffiliateLinkRow): int { OrZero(l.conversions) }
  function LinkEarned(l: AffiliateLinkRow): int { OrZero(l.commissionEarned) }
  function Wallet(p: ProfileRow): int { OrZero(p.walletBalance) }

  /**
   * The link update of one attribution: the link's conversions become the
   * value read plus one and its earned commission the value read plus the
   * total (null read as 0); no other link changes, so the sums over all links
   * rise by exactly 1 and by the total.
   */
  lemma ConvertedLinksSpec(links: seq<AffiliateLinkRow>, linkId: Id, total: int)
    requires LinkById(links, linkId).Some?
    ensures var cur := LinkById(links, linkId).value;
      var s := ConvertedLinks(links, linkId, cur, total);
      cur.id == linkId &&
      |s| == |links| &&
      (forall i :: 0 <= i < |links| && links[i].id != linkId ==> s[i] == links[i]) &&
      (forall i :: 0 <= i < |links| && links[i].id == linkId ==>
        s[i].conversions == Some(OrZero(cur.conversions) + 1) &&
        s[i].commissionEarned == Some(OrZero(cur.commissionEarned) + total)) &&
      SumBy(s, LinkConversions) == SumBy(links, LinkConversions) + 1 &&
      SumBy(s, LinkEarned) == SumBy(links, LinkEarned) + total
  {
    var cur := LinkById(links, linkId).value;
    assert cur in Where(links, LinkIdIs(linkId));
    SumUpdateSingle(links, LinkIdIs(linkId), ConvertLink(cur, total), LinkConversions);
    SumUpdateSingle(links, LinkIdIs(linkId), ConvertLink(cur, total), LinkEarned);
  }

  /** With a resolved link whose update succeeds, the settled links are that link converted. */
  lemma AttributedLinks(t: Tables, form: CheckoutForm, items: seq<CartItem>, totalPrice: int,
                        code: Option<string>, orderId: Id, f: CheckoutFaults)
    requires Settle(t, form, items, totalPrice, code, orderId, f).outcome == Placed
    requires ResolvedLink(t, code, f).Some? && !f.linkUpdateFails
    ensures var cur := ResolvedLink(t, code, f).value;
      LinkById(t.affiliateLinks, cur.id) == Some(cur) &&
      Settle(t, form, items, totalPrice, code, orderId, f).tables.affiliateLinks ==
        ConvertedLinks(t.affiliateLinks, cur.id, cur, SumBy(items, CartLineCommission))
  {
    PlacedSettlement(t, form, items, totalPrice, code, orderId, f);
    var linkId := ResolveLinkId(t.affiliateLinks, code, f.codeLookupFails).value;
    var cur := ResolvedLink(t, code, f).value;
    assert cur in Where(t.affiliateLinks, LinkIdIs(linkId));
  }

  /**
   * The wallet update of one attribution: the affiliate's balance becomes the
   * balance read (null as 0) plus the total; no other profile changes, so the
   * sum of all wallets rises by exactly the total.
   */
  lemma CreditedProfilesSpec(profiles: seq<ProfileRow>, id: Id, total: int)
    requires ProfileById(profiles, id).Some?
    ensures var p := ProfileById(profiles, id).value;
      var s := CreditedProfiles(profiles, id, p, total);
      p.id == id &&
      |s| == |profiles| &&
      (forall i :: 0 <= i < |profiles| && profiles[i].id != id ==> s[i] == profiles[i]) &&
      (forall i :: 0 <= i < |profiles| && profiles[i].id == id ==>
        s[i].walletBalance == Some(OrZero(p.walletBalance) + total)) &&
      SumBy(s, Wallet) == SumBy(profiles, Wallet) + total
  {
    var p := ProfileById(profiles, id).value;
    assert p in Where(profiles, ProfileIdIs(id));
    SumUpdateSingle(profiles, ProfileIdIs(id), Credit(p, total), Wallet);
  }

  /** With the affiliate's profile found and written, the settled profiles are that profile credited. */
  lemma CreditedWallets(t: Tables, form: CheckoutForm, items: seq<CartItem>, totalPrice: int,
                        code: Option<string>, orderId: Id, f: CheckoutFaults)
    requires Settle(t, form, items, totalPrice, code, orderId, f).outcome == Placed
    requires ResolvedLink(t, code, f).Some? && !f.profileReadFails && !f.walletUpdateFails
    requires ProfileById(t.profiles, ResolvedLink(t, code, f).value.affiliateId).Some?
    ensures var id := ResolvedLink(t, code, f).value.affiliateId;
      Settle(t, form, items, totalPrice, code, orderId, f).tables.profiles ==
        CreditedProfiles(t.profiles, id, ProfileById(t.profiles, id).value, SumBy(items, CartLineCommission))
  {
    PlacedSettlement(t, form, items, totalPrice, code, orderId, f);
  }

  /** Only the wallet column of the affiliate's own profile rows can change. */
  predicate OnlyWalletOf(before: seq<ProfileRow>, after: seq<ProfileRow>, id: Option<Id>) {
    |after| == |before| &&
    forall i :: 0 <= i < |before| ==>
      after[i].(walletBalance := before[i].walletBalance) == before[i] &&
      (after[i] != before[i] ==> id.Some? && before[i].id == id.value)
  }

  /** No vendor wallet is ever updated: a settlement changes at most the affiliate's balance. */
  lemma NoVendorWalletChange(t: Tables, form: CheckoutForm, items: seq<CartItem>, totalPrice: int,
                             code: Option<string>, orderId: Id, f: CheckoutFaults)
    ensures OnlyWalletOf(t.profiles, Settle(t, form, items, totalPrice, code, orderId, f).tables.profiles,
                         CreditedAffiliate(t, code, f))
  {
  }

  function KindIs(kind: string): TransactionRow -> bool { (r: TransactionRow) => r.kind == kind }

  /** Every row of the vendor loop is a `sale` for one cart line's vendor, referencing the order. */
  lemma {:induction false} SaleRowsAreSales(orderId: Id, items: seq<CartItem>, fails: seq<bool>)
    ensures |SaleTransactions(orderId, items, fails)| <= |items|
    ensures forall r :: r in SaleTransactions(orderId, items, fails) ==>
      r.kind == "sale" && r.referenceId == Some(orderId) && exists i :: 0 <= i < |items| && r == SaleTransaction(orderId, items[i])
  {
    if items != [] {
      var init := items[..|items| - 1];
      SaleRowsAreSales(orderId, init, fails);
      forall r | r in SaleTransactions(orderId, items, fails)
        ensures exists i :: 0 <= i < |items| && r == SaleTransaction(orderId, items[i])
      {
        if r in SaleTransactions(orderId, init, fails) {
          var i :| 0 <= i < |init| && r == SaleTransaction(orderId, init[i]);
          assert init[i] == items[i];
        } else {
          assert r == SaleTransaction(orderId, items[|items| - 1]);
        }
      }
    }
  }

  function SaleOf(orderId: Id): CartItem -> TransactionRow { (item: CartItem) => SaleTransaction(orderId, item) }

  /** When no vendor insert fails there is exactly one `sale` row per cart line, in cart order. */
  lemma {:induction false} OneSalePerLine(orderId: Id, items: seq<CartItem>, fails: seq<bool>)
    requires forall i :: 0 <= i < |items| ==> !Fails(fails, i)
    ensures SaleTransactions(orderId, items, fails) == MapRows(items, SaleOf(orderId))
    ensures |SaleTransactions(orderId, items, fails)| == |items|
    ensures forall i :: 0 <= i < |items| ==>
      SaleTransactions(orderId, items, fails)[i] == SaleTransaction(orderId, items[i])
  {
    if items != [] {
      var n := |items| - 1;
      OneSalePerLine(orderId, items[..n], fails);
      assert !Fails(fails, n);
    }
  }

  /**
   * Exactly one `commission` row is written when a link resolves and its insert
   * succeeds, for the link's affiliate, with the total commission and the order
   * as reference; whether the profile was found does not matter.
   */
  lemma OneCommissionRow(t: Tables, form: CheckoutForm, items: seq<CartItem>, totalPrice: int,
                         code: Option<string>, orderId: Id, f: CheckoutFaults)
    requires Settle(t, form, items, totalPrice, code, orderId, f).outcome == Placed
    requires ResolvedLink(t, code, f).Some? && !f.commissionInsertFails
    ensures var s := Settle(t, form, items, totalPrice, code, orderId, f).tables;
      var total := SumBy(items, CartLineCommission);
      s.transactions == t.transactions
        + [CommissionTransaction(orderId, ResolvedLink(t, code, f).value.affiliateId, total)]
        + SaleTransactions(orderId, items, f.saleInsertFails) &&
      |Where(s.transactions, KindIs("commission"))| == |Where(t.transactions, KindIs("commission"))| + 1
  {
    var cur := ResolvedLink(t, code, f).value;
    var total := TotalCommission(OrderItemsFor(orderId, items));
    TotalCommissionOfCart(orderId, items);
    var c := CommissionTransaction(orderId, cur.affiliateId, total);
    var sales := SaleTransactions(orderId, items, f.saleInsertFails);
    SaleRowsAreSales(orderId, items, f.saleInsertFails);
    WhereAppend(t.transactions + [c], sales, KindIs("commission"));
    WhereAppend(t.transactions, [c], KindIs("commission"));
    assert Where([c], KindIs("commission")) == [c];
    WhereNone(sales, KindIs("commission"));
  }

  /**
   * Rounding a per-unit amount and multiplying by q differs from rounding q
   * times the amount by at most q/2.
   */
  lemma RoundingGap(a: int, q: int)
    requires q >= 0
    ensures -q <= 2 * (JsRound(a, 100) * q - JsRound(a * q, 100)) <= q
  {
    var u := JsRound(a, 100);
    var l := JsRound(a * q, 100);
    JsRoundIsNearest(a, 100);
    JsRoundIsNearest(a * q, 100);
    if q == 0 {
      assert a * q == 0;
      assert l == 0;
    } else {
      MulMonotone(200 * u, 2 * a + 100, q);
      MulStrict(2 * a - 100, 200 * u, q);
      assert (200 * u) * q == 200 * (u * q);
      assert (2 * a + 100) * q == 2 * (a * q) + 100 * q;
      assert (2 * a - 100) * q == 2 * (a * q) - 100 * q;
    }
  }

  /**
   * The affiliate's rounded-per-unit commission and the vendor's rounded-per-line
   * amount add up to the line price up to half a unit per item quantity.
   */
  lemma LineSharesGap(item: CartItem)
    requires item.quantity >= 0
    ensures var gap := CartLineCommission(item) + VendorAmount(item) - item.price * item.quantity;
      -item.quantity <= 2 * gap <= item.quantity
  {
    RoundingGap(item.price * item.commission, item.quantity);
  }

  /** For a single unit the two shares add up to the price exactly. */
  lemma SingleUnitConserved(item: CartItem)
    requires item.quantity == 1
    ensures CartLineCommission(item) + VendorAmount(item) == item.price
  {
    LineSharesGap(item);
  }

  /** Two units at price 1 with a 50% commission: the shares add up to 3, not 2. */
  lemma TwoUnitsNotConserved()
    ensures var item := CartItem("p", "t", 1, 2, 50, "v");
      CartLineCommission(item) == 2 && VendorAmount(item) == 1 &&
      CartLineCommission(item) + VendorAmount(item) != item.price * item.quantity
  {
  }
}
