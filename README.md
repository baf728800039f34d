# Affiliate marketplace: settlement, attribution and admin rules in Dafny

This project models the rules of a marketplace in which vendors list
products, affiliates share referral links, and customers check out as
guests. The backend is a hosted Postgres reached through a client
library. Here it is a `Store` class with one sequence of rows per table
(orders, order items, affiliate links, profiles, transactions,
withdrawals, products, applications, user roles, auth users). Every
remote call's failure, and every value the service generates (ids,
codes, public URLs), is a parameter of the handler that makes the call.
Money is an integer number of minor units. `Math.round(n / d)` is
`JsRound(n, d) = (2n + d) / (2d)`, which rounds halves up.

The heart of the model is the checkout (`Checkout.Settle` and the
method `Checkout.HandleSubmit`), which runs these steps in order:

- it resolves an optional referral code to a link;
- it writes a `completed` order and one item per cart line, recording each line's one-unit commission;
- for an attributed order, it raises the link's conversions and earned commission, credits the affiliate's wallet and writes one `commission` transaction;
- it writes one `sale` transaction per cart line, and never credits a vendor wallet;
- it clears the cart.

Around the checkout sit these rules:

- click tracking and link generation on the marketplace page;
- the vendor and affiliate statistics;
- the withdrawal request form;
- the admin approve/reject pages for applications, products and withdrawals;
- the verification toggles;
- role derivation and dashboard dispatch;
- the admin login;
- signup;
- the `setup-admin` edge function;
- the verification form, status card and profile page;
- the add-product form.

Handlers whose source updates component state are classes whose fields
are that state. Their methods are proved against functions of the old
state, and the properties are lemmas about those functions.

Where the code and its accompanying description disagree, the model
follows the code. The cases:

- The checkout takes the commission as `round(price*commission/100)` per unit times the quantity, and the vendor's share as `price*q - round(price*commission*q/100)`. The two do not always add up to the line price.
- `total_earned` is read on the affiliate dashboard, although the column the checkout writes is `commission_earned`.
- `useAuth` ranks the primary role admin, then vendor, then affiliate. `Dashboard` dispatches vendor first.
- The verification pages write `image_verified`, while the status card reads `photo_verified`.
- The vendor's share is written to the ledger as `sale` rows, but no vendor wallet is credited.
- No withdrawal approval debits a wallet or writes a `withdrawal` transaction.
- The affiliate dashboard's create writes the code under `link_code`, a column the link table does not have, so as written it never creates a link (see Findings).

## Model

| member | source | states |
|---|---|---|
| Checkout.OrderItemsFor | src/components/cart/CheckoutModal.tsx:65-77 | one order item per cart line, in cart order, each built from that line |
| Checkout.ResolveLinkId | src/components/cart/CheckoutModal.tsx:36-47 | a link id results exactly when the code is truthy, the lookup succeeds and exactly one link has that code (`maybeSingle`); it is that link's id |
| Checkout.Settle | src/components/cart/CheckoutModal.tsx:25-154 | empty name or email gives MissingFields and no write; a failed order insert writes nothing; a failed items insert leaves only the completed order, with the resolved link id; Placed exactly when both inserts succeed |
| Checkout.HandleSubmit | src/components/cart/CheckoutModal.tsx:25-154 | the step-by-step handler on the store leaves exactly the tables and outcome of `Settle`; the cart is cleared exactly when the order is placed |
| Checkout.CreditAffiliate | src/components/cart/CheckoutModal.tsx:83-126 | the link read, link update, profile read, wallet update and commission insert leave exactly the tables of `Attribute` |
| Checkout.RecordSales | src/components/cart/CheckoutModal.tsx:129-143 | the vendor loop appends the sale rows of `SaleTransactions` (one per line whose insert succeeds) and changes no other table |
| Checkout.OrderItemsMatchCart | src/components/cart/CheckoutModal.tsx:65-77 | each written item carries its line's product, price and quantity, and `commission_amount = round(price*commission/100)` |
| Checkout.PlacedOrderWritten | src/components/cart/CheckoutModal.tsx:50-77 | a placed order appends exactly one order (status completed, amount totalPrice, the resolved link) and exactly the cart's items |
| Checkout.TotalCommissionOfCart | src/components/cart/CheckoutModal.tsx:80-81 | the total commission over the written items equals the sum over the cart of one-unit commission times quantity |
| Checkout.UnattributedSettlement | src/components/cart/CheckoutModal.tsx:36-47 | without a resolvable code the order has a null link, no link or profile changes, and the only transactions are the sales |
| Checkout.SettleTouchesOnlyCheckoutTables | src/components/cart/CheckoutModal.tsx:25-154 | whatever the outcome, products, withdrawals, applications, roles and accounts are unchanged: the handler writes only orders, items, links, profiles and transactions |
| Checkout.ConvertedLinksSpec | src/components/cart/CheckoutModal.tsx:92-98 | the link update sets conversions to the value read plus 1 and earned to the value read plus total (null as 0) and changes no other link; the sums over all links rise by exactly 1 and by the total |
| Checkout.AttributedLinks | src/components/cart/CheckoutModal.tsx:84-98 | a placed, attributed order whose link update succeeds leaves the links converted by the cart's total commission |
| Checkout.CreditedProfilesSpec | src/components/cart/CheckoutModal.tsx:101-114 | the wallet update sets the affiliate's balance to the value read (null as 0) plus total and changes no other profile; the sum of wallets rises by exactly total |
| Checkout.CreditedWallets | src/components/cart/CheckoutModal.tsx:101-114 | with the affiliate's profile found and written, the settled profiles are that profile credited with the cart's total commission |
| Checkout.NoVendorWalletChange | src/components/cart/CheckoutModal.tsx:101-143 | every settlement changes only the wallet column, and only on the resolved affiliate's profile rows; no vendor wallet moves |
| Checkout.SaleRowsAreSales | src/components/cart/CheckoutModal.tsx:129-143 | at most one row per line; every row of the vendor loop is a `sale` referencing the order and built from one cart line |
| Checkout.OneSalePerLine | src/components/cart/CheckoutModal.tsx:129-143 | with no failing insert there is exactly one sale per cart line, in cart order (per line, not per vendor) |
| Checkout.OneCommissionRow | src/components/cart/CheckoutModal.tsx:116-125 | with a resolved link and a successful insert, exactly one commission row, for the link's affiliate with the total commission and the order as reference, whether or not the profile was found |
| Checkout.RoundingGap | src/components/cart/CheckoutModal.tsx:70 | rounding per unit then multiplying by q differs from rounding the q-fold amount by at most q/2 |
| Checkout.LineSharesGap | src/components/cart/CheckoutModal.tsx:70-131 | the commission and vendor shares add up to the line price to within q/2 |
| Checkout.SingleUnitConserved | src/components/cart/CheckoutModal.tsx:70-131 | for a single unit the two shares add up exactly to the price |
| Checkout.TwoUnitsNotConserved | src/components/cart/CheckoutModal.tsx:70-131 | two units at price 1 with 50% commission: the shares add up to 3, not 2 |
| WithdrawModal.AmountHint | src/components/dashboard/WithdrawModal.tsx:164-167 | a hint is shown exactly for a non-empty amount that is not positive-and-within-balance; the balance hint exactly when it exceeds the balance |
| WithdrawModal.RequestOutcome | src/components/dashboard/WithdrawModal.tsx:34-76 | MissingFields exactly when a field is empty; Requested exactly when all fields are present, the amount is valid, a user is signed in and the insert succeeds; a requested amount is within (0, balance] |
| WithdrawModal.WithdrawForm.constructor | src/components/dashboard/WithdrawModal.tsx:26-28 | the form starts with no method, no amount and no details |
| WithdrawModal.WithdrawForm.SelectMethod | src/components/dashboard/WithdrawModal.tsx:17-21 | clicking a button selects that button's method id |
| WithdrawModal.WithdrawForm.EditAmount | src/components/dashboard/WithdrawModal.tsx:160 | the amount field takes the typed value |
| WithdrawModal.WithdrawForm.EditPaymentDetails | src/components/dashboard/WithdrawModal.tsx:178 | the details field takes the typed value |
| WithdrawModal.WithdrawForm.HandleSubmit | src/components/dashboard/WithdrawModal.tsx:34-97 | the outcome is `RequestOutcome` of the old fields; a request appends exactly one pending withdrawal for the user, amount and method, and clears the form; otherwise the table and the form are unchanged; wallets and ledger are never touched |
| IndexPage.ClickedLinksOfKnownCode | src/pages/Index.tsx:48-66 | for a code matching exactly one link, the intended effect is that link's click update |
| IndexPage.ClickCounted | src/pages/Index.tsx:61-64 | the click update raises that link's clicks by one (null as 0), leaves other links alone, and raises the total clicks by one |
| IndexPage.ClickLostAsWritten | src/pages/Index.tsx:61-64 | as written, the total clicks after a click on a known link are one fewer than intended |
| IndexPage.UnknownCodeNoClick | src/pages/Index.tsx:48-66 | an absent code, or one matching no link or several links, changes no link |
| IndexPage.TrackClick | src/pages/Index.tsx:48-66 | a truthy `ref` becomes the affiliate code and the links become `ClickedLinks` of the old links |
| IndexPage.VendorCountsWithinTotal | src/pages/Index.tsx:116-125 | approved plus pending products are at most the vendor's product count |
| IndexPage.VendorStatsAppend | src/pages/Index.tsx:116-125 | one more product adds exactly its sales (null as 0), sales times price, and its status count |
| IndexPage.ConversionRateBounds | src/pages/Index.tsx:167 | with conversions at most clicks the rate is within 0..100, 100 when every click converted, 0 with no conversion |
| IndexPage.ImageCount | src/pages/Index.tsx:110 | a non-empty url list counts its length; otherwise 1 for a truthy single image, else 0 |
| IndexPage.FormatProducts | src/pages/Index.tsx:101-113 | one buyer-facing product per raw row, in order |
| IndexPage.SharedPrefixShadows | src/pages/Index.tsx:223-227 | when two raw rows share the first 8 id characters, the lookup for the later one finds an earlier row |
| IndexPage.ParseHexSample | src/pages/Index.tsx:102 | `parseInt("0000000a", 16)` is 10 |
| IndexPage.PrefixCollision | src/pages/Index.tsx:102 | two different uuids with the same first 8 characters get the same numeric id |
| IndexPage.CategoriesOf | src/pages/Index.tsx:315 | the category of each product, in order |
| IndexPage.CategoriesFirstSeen | src/pages/Index.tsx:315 | the list starts with All, holds every product's category once, and nothing else |
| IndexPage.FilteredProducts | src/pages/Index.tsx:318-323 | a product is shown exactly when it matches the search (title or description, case-insensitive) and the category |
| IndexPage.FilterKeepsOrder | src/pages/Index.tsx:318-323 | filtering distributes over concatenation, so the order is kept |
| IndexPage.EmptySearchShowsAll | src/pages/Index.tsx:318-323 | the initial filters show every product |
| IndexPage.MarketplaceState.constructor | src/pages/Index.tsx:39-44 | empty lists and zero statistics |
| IndexPage.MarketplaceState.FetchVendorData | src/pages/Index.tsx:93-126 | on success the raw rows are the vendor's products, listed formatted, with the vendor stats of those rows; link state is untouched |
| IndexPage.MarketplaceState.FetchAffiliateData | src/pages/Index.tsx:128-169 | approved products for the list; on success the user's links and their sums (null as 0) and rounded rate |
| IndexPage.MarketplaceState.HandleGenerateLink | src/pages/Index.tsx:219-262 | a link is generated exactly when signed in, the product is found, no local link for it exists and the insert succeeds; it is appended to the store and the local list with the user, product and code; otherwise nothing is inserted |
| IndexPage.MarketplaceState.HandleAddToCart | src/pages/Index.tsx:264-279 | a cart addition exactly when both the listed product and its raw row are found, built from both |
| Listing.FilterByStatus | src/pages/Applications.tsx:45-58 | `all` keeps every row; otherwise exactly the rows with that status, from the input |
| Listing.DecisionStatus | src/pages/Applications.tsx:61 | approve writes approved, reject writes rejected |
| Listing.StatusBadge | src/pages/Applications.tsx:97-106 | approved and rejected badges for those statuses, Pending for anything else |
| Listing.ActionsOnlyOnPendingBadge | src/pages/Applications.tsx:175 | a row with actions shows Pending; an unknown status shows Pending without actions |
| Applications.FilterApplications | src/pages/Applications.tsx:45-58 | `all` keeps every application; otherwise exactly those with the selected status |
| Applications.SetApplicationStatus | src/pages/Applications.tsx:63-66 | the application with that id gets the status; every other row is unchanged |
| Applications.HandleApplication | src/pages/Applications.tsx:60-95 | a failed update changes nothing and does not refetch; otherwise the status is recorded, approval inserts the application's role (a failure only logged), and the list is refetched |
| Applications.ApprovingTwiceKeepsRole | src/pages/Applications.tsx:77-88 | approving grants the role unless the insert fails; approving again hits the duplicate and leaves the roles as they are |
| Applications.ApplicationRowDisplay | src/pages/Applications.tsx:175 | actions exactly for pending applications, which show the Pending badge |
| ProductsPage.FilterProducts | src/pages/Products.tsx:41-54 | `all` keeps every product; otherwise exactly those with the selected status |
| ProductsPage.SetProductStatus | src/pages/Products.tsx:56-66 | the product with that id gets the status; every other row is unchanged |
| ProductsPage.UpdateProductStatus | src/pages/Products.tsx:56-75 | on success the products become `SetProductStatus` with the decision and the list is refetched; on error nothing changes |
| ProductsPage.LastDecisionWins | src/pages/Products.tsx:56-75 | approving then rejecting equals rejecting |
| ProductsPage.ProductRowDisplay | src/pages/Products.tsx:85-94 | actions exactly for pending products; unknown statuses show Pending |
| Withdrawals.FilterWithdrawals | src/pages/Withdrawals.tsx:49-56 | `all` keeps every withdrawal; otherwise exactly those with the selected status |
| Withdrawals.SetWithdrawalStatus | src/pages/Withdrawals.tsx:81-84 | the withdrawal with that id gets the status; every other row is unchanged |
| Withdrawals.DistinctUserIds | src/pages/Withdrawals.tsx:62 | every requesting user's id, with no repetition and nothing else |
| Withdrawals.UserIds | src/pages/Withdrawals.tsx:62 | the user id of each row, in order |
| Withdrawals.ProfilesMapKeyedById | src/pages/Withdrawals.tsx:69-72 | the map's keys are exactly the fetched ids, and each entry is a fetched profile with that id |
| Withdrawals.BuildProfilesMap | src/pages/Withdrawals.tsx:69-72 | the `forEach` loop builds `ProfilesMapOf` of the rows |
| Withdrawals.HandleWithdrawal | src/pages/Withdrawals.tsx:78-100 | on success the status becomes the decision and the list is refetched; on error nothing changes; profiles and transactions are never written |
| Withdrawals.WithdrawalRowDisplay | src/pages/Withdrawals.tsx:110-119 | actions exactly for pending withdrawals; unknown statuses show Pending |
| Withdrawals.WithdrawalsPage.constructor | src/pages/Withdrawals.tsx:31-32 | empty list and empty profile map |
| Withdrawals.WithdrawalsPage.FetchWithdrawals | src/pages/Withdrawals.tsx:49-76 | an error keeps both; otherwise the filtered rows, and the profile map rebuilt from the users' profiles only when some user id was found |
| AffiliateDashboard.JoinProducts | src/pages/AffiliateDashboard.tsx:80-87 | each fetched link joined with its product, in order |
| AffiliateDashboard.StatsOf | src/pages/AffiliateDashboard.tsx:96-101 | the total links count is the number of links (the other three totals are stated of the fetched rows by `EarnedAlwaysZero`) |
| AffiliateDashboard.EarnedAlwaysZero | src/pages/AffiliateDashboard.tsx:96-100 | the earned total is 0 whatever the links earned; the links total is the row count, and the click and conversion totals are the sums of the rows' counters (null as 0) |
| AffiliateDashboard.EarnedMissedExample | src/pages/AffiliateDashboard.tsx:100 | a link with 250 earned still shows 0 earned |
| AffiliateDashboard.ExistingLinkByRow | src/pages/AffiliateDashboard.tsx:172-174 | with each link's product in the catalogue once, a product has a link exactly when some row references it, and Get Link is shown exactly otherwise |
| AffiliateDashboard.DashboardState.constructor | src/pages/AffiliateDashboard.tsx:49-57 | empty lists, no link being created, zero totals |
| AffiliateDashboard.DashboardState.FetchAffiliateLinks | src/pages/AffiliateDashboard.tsx:77-103 | without a user or on error nothing changes; otherwise the user's links joined with products, and their totals |
| AffiliateDashboard.DashboardState.FetchAvailableProducts | src/pages/AffiliateDashboard.tsx:105-117 | the approved products, or the old list on error |
| AffiliateDashboard.CreateOutcomeFor | src/pages/AffiliateDashboard.tsx:119-139 | no user gives NoUser, a failed code call CodeFailed; a link is created exactly when user and code exist, the table takes the written columns and the insert succeeds |
| AffiliateDashboard.CreateOutcomeAsWritten | src/pages/AffiliateDashboard.tsx:131-139 | with the code under `link_code`, no attempt ever creates a link; once user and code exist the insert always fails |
| AffiliateDashboard.LinkCodeRefused | src/integrations/supabase/types.ts:28-37 | `link_code` is no column of affiliate_links and the required `code` is missing, so the table refuses that insert |
| AffiliateDashboard.CodeColumnAccepted | src/integrations/supabase/types.ts:28-37 | an insert of affiliate id, product id and `code` is one the table takes |
| AffiliateDashboard.DashboardState.CreateAffiliateLink | src/pages/AffiliateDashboard.tsx:119-156 | the create with the code under `code`: its outcome is that of `CreateOutcomeFor` for those columns; no code means no insert; a link is created exactly when a user exists, the code is returned and the insert succeeds, with the user, product and code; the creating flag is always cleared |
| VendorDashboard.StatsOf | src/pages/VendorDashboard.tsx:76-88 | the product total is the list length |
| VendorDashboard.CountsWithinTotal | src/pages/VendorDashboard.tsx:77-85 | approved plus pending is at most the total |
| VendorDashboard.TotalsNonNegative | src/pages/VendorDashboard.tsx:79-80 | non-negative sales and prices give non-negative sales and revenue totals |
| VendorDashboard.AgreesWithMarketplace | src/pages/VendorDashboard.tsx:77-88 | the dashboard's figures equal the marketplace page's vendor stats for the same list |
| VendorDashboard.ProductBadge | src/pages/VendorDashboard.tsx:92-101 | approved and rejected badges for those statuses, Pending for anything else |
| RolesMap.RoleNames | src/pages/Users.tsx:80-87 | the role of each row, in order |
| RolesMap.RolesOfSnoc | src/pages/Users.tsx:80-87 | appending a row adds its role to that user's roles only |
| RolesMap.RoleNamesAppend | src/pages/Users.tsx:80-87 | role names distribute over concatenation |
| RolesMap.RolesMapAt | src/pages/Users.tsx:80-87 | a user is a key exactly when they have a role, and their entry is their roles in row order |
| RolesMap.RolesMapGroups | src/pages/Users.tsx:80-87 | the keys are exactly the user ids present, each with a non-empty list of that user's roles |
| RolesMap.GroupRoles | src/pages/Users.tsx:80-87 | the `forEach` loop builds `RolesMapOf` of the rows |
| UsersPage.FieldName | src/pages/Users.tsx:97 | the written column is the type name followed by `_verified`, and it is one of the profile's flag columns |
| UsersPage.FieldNamesDistinct | src/pages/Users.tsx:97 | the three toggles name three different columns |
| UsersPage.UpdateFor | src/pages/Users.tsx:108-112 | the update names the column `FieldName` gives and sets it to the value, plus approved/rejected review status exactly for an image toggle |
| UsersPage.ToggleWritesOnlyItsField | src/pages/Users.tsx:97-112 | after a toggle the flag read back through the same column key is the requested value; of the flag columns only the one `FieldName` names changes; nothing else in the profile changes except the review status, and that only for an image toggle |
| UsersPage.OfferedRequest | src/pages/Users.tsx:273-275 | the offered button asks for true exactly when the flag is currently false (Approve) and for false when it is true (Revoke) |
| UsersPage.OfferedButtonFlips | src/pages/Users.tsx:361-379 | the offered button always asks for a change, and its update flips the flag the dialog reads |
| UsersPage.UsersPageState.constructor | src/pages/Users.tsx:45-47 | no profiles, no roles, no dialog |
| UsersPage.UsersPageState.OpenDialog | src/pages/Users.tsx:90-92 | the dialog opens on that profile and flag |
| UsersPage.UsersPageState.FetchUsers | src/pages/Users.tsx:63-88 | a profiles error keeps both; otherwise all profiles and the roles map (empty if the roles query failed) |
| UsersPage.UsersPageState.ToggleVerification | src/pages/Users.tsx:94-128 | with no dialog nothing happens; the write happens exactly when the value changes and the update succeeds, and is the profile's update; the dialog stays open exactly on a failed write |
| AdminUsers.RolesCellFor | admin-project/src/pages/Users.tsx:125-129 | "No roles" exactly when the user has no entry |
| AdminUsers.NameCell | admin-project/src/pages/Users.tsx:116 | the full name when truthy, else N/A |
| AdminUsers.NoRolesIffNoRow | admin-project/src/pages/Users.tsx:57-64 | for a map built from the role rows, "No roles" exactly for a user with no row; otherwise that user's roles |
| AdminUsers.AdminUsersState.constructor | admin-project/src/pages/Users.tsx:30-31 | empty profiles and roles |
| AdminUsers.AdminUsersState.FetchUsers | admin-project/src/pages/Users.tsx:47-65 | each list is replaced only when its own query returned data |
| Auth.DeriveRoles | src/hooks/useAuth.tsx:81-95 | each flag is membership of that role; primary role admin, else vendor, else affiliate, else none |
| Auth.PrimaryRoleConsistent | src/hooks/useAuth.tsx:81-95 | primary role admin iff isAdmin; vendor implies isVendor and not isAdmin; affiliate implies isAffiliate and neither of the others; none iff no flag |
| Auth.AuthState.constructor | src/hooks/useAuth.tsx:19-25 | no user, no session, loading, no roles |
| Auth.AuthState.ResetRoles | src/hooks/useAuth.tsx:62-67 | every flag false and no primary role |
| Auth.AuthState.FetchUserRoles | src/hooks/useAuth.tsx:69-99 | an error keeps the role state; otherwise `DeriveRoles` of the user's role names |
| Auth.AuthState.OnAuthStateChange | src/hooks/useAuth.tsx:29-45 | user and session follow the event; signed out resets the roles; signed in fetches them; loading ends |
| Auth.AuthState.RestoreSession | src/hooks/useAuth.tsx:48-57 | like the listener, but no session leaves the roles as they were |
| Auth.AuthState.SignOut | src/hooks/useAuth.tsx:101-106 | user, session and roles cleared |
| Dashboard.Redirect | src/pages/Dashboard.tsx:9-26 | loading stays; signed out goes to /login; otherwise vendor, then affiliate, then admin, else stay |
| Dashboard.RedirectVersusPrimaryRole | src/pages/Dashboard.tsx:17-23 | the dispatch follows the primary role except for admins who also hold another role; an admin+vendor goes to /vendor |
| Dashboard.NoRoleStays | src/pages/Dashboard.tsx:24 | a user without a primary role stays on the page |
| LoginPage.HandleLogin | src/pages/LoginPage.tsx:17-56 | a failed sign-in makes no further call; login succeeds exactly when signed in and the role rows include admin, then navigates; otherwise the user is signed out again and never navigated |
| Signup.Validate | src/components/auth/SignupPage.tsx:17-21 | passes exactly with a valid email, a password of at least 6 and a name of at least 2; reports the first failing field |
| Signup.SignUpErrorOutcome | src/components/auth/SignupPage.tsx:58-73 | Account Exists exactly when the message contains "User already registered"; otherwise the message passes through |
| Signup.HandleSignup | src/components/auth/SignupPage.tsx:31-107 | signUp is called exactly when validation passes; a returned user gets the role row and a pending application (failures only logged) and the id is handed on; no other path writes |
| Signup.AccountExistsExample | src/components/auth/SignupPage.tsx:58-59 | the service's own message gives Account Exists, an unrelated one passes through |
| SetupAdmin.ExistingAdmins | supabase/functions/setup-admin/index.ts:31-46 | no data exactly when the query fails; otherwise at most one row, present exactly when some admin role exists |
| SetupAdmin.Handle | supabase/functions/setup-admin/index.ts:10-88 | OPTIONS answers 200 with no change; a bad body is 500; a missing email or password is 400 with no change; a 200 is success; no failure adds a role |
| SetupAdmin.CreatesUser | supabase/functions/setup-admin/index.ts:49-80 | exactly a request that reaches `createUser` adds one confirmed user (named Admin by default); it succeeds exactly when the role insert does; any other request changes nothing |
| SetupAdmin.AtMostOneAdmin | supabase/functions/setup-admin/index.ts:31-46 | after a successful call, a second call whose check succeeds is refused with 400 and changes nothing |
| SetupAdmin.ServeSetupAdmin | supabase/functions/setup-admin/index.ts:10-88 | the handler over the store gives exactly the response and tables of `Handle` |
| Store.InsertRole | src/integrations/supabase/types.ts:325-352 | the insert succeeds exactly for a new pair when the call does not fail, and then appends it; otherwise the roles are unchanged; the pair is present afterwards unless the call failed |
| Store.Store.constructor | src/integrations/supabase/types.ts:17-394 | every table empty |
| Store.Store.Load | src/integrations/supabase/types.ts:17-394 | every table replaced by the given snapshot |
| Store.Store.InsertRoleRow | src/integrations/supabase/types.ts:325-352 | the result and the new roles are those of `InsertRole` |
| VerificationForm.CompletionKeepsEarlierSteps | src/components/auth/VerificationForm.tsx:99-125 | completion marks email verified and status verified, and keeps phone and photo flags |
| VerificationForm.VerificationFormState.constructor | src/components/auth/VerificationForm.tsx:16-23 | empty phone, nothing verified, no photo, not uploading |
| VerificationForm.VerificationFormState.EditPhone | src/components/auth/VerificationForm.tsx:158 | the phone field takes the typed value |
| VerificationForm.VerificationFormState.HandlePhoneVerification | src/components/auth/VerificationForm.tsx:25-45 | an empty number or a failed update writes nothing; otherwise the user's profile gets the number, verified |
| VerificationForm.VerificationFormState.HandlePhotoChange | src/components/auth/VerificationForm.tsx:47-57 | a file within 5 MiB becomes the choice; a larger one keeps the previous choice |
| VerificationForm.VerificationFormState.HandlePhotoUpload | src/components/auth/VerificationForm.tsx:59-97 | without a photo nothing happens; on success the profile gets the photo url and the photo flag; uploading ends |
| VerificationForm.VerificationFormState.HandleComplete | src/components/auth/VerificationForm.tsx:99-125 | completes exactly when phone and photo are done and the update succeeds, writing only the completion update |
| VerificationCard.CompletedSteps | src/components/dashboard/VerificationStatusCard.tsx:65 | between 0 and 3 steps |
| VerificationCard.ProgressValues | src/components/dashboard/VerificationStatusCard.tsx:64-66 | the progress, computed unrounded and rounded only where it is shown (line 165), displays as 0, 33, 67 or 100 by step count, and 100 exactly when fully verified |
| VerificationCard.View | src/components/dashboard/VerificationStatusCard.tsx:75-77 | hidden exactly when fully verified and the timer fired; the verified card otherwise when fully verified; the steps card exactly when not |
| ProfilePage.CheckFile | src/pages/ProfilePage.tsx:67-84 | passes exactly for an image within 5 MiB; a non-image is reported as such first |
| ProfilePage.BadgeFor | src/pages/ProfilePage.tsx:137-172 | Verified exactly when image-verified; Rejected, Pending approval and Not submitted in that order of precedence |
| ProfilePage.ReviewCycle | src/pages/ProfilePage.tsx:105-112 | a submitted document shows Pending approval with upload offered; an admin's image approval shows Verified and hides the upload; a rejection shows Rejected and offers it again; the status card's flags never change |
| ProfilePage.ProfilePageState.constructor | src/pages/ProfilePage.tsx:32-34 | no profile, loading, not uploading |
| ProfilePage.ProfilePageState.FetchProfile | src/pages/ProfilePage.tsx:46-61 | with a user the loading ends and the profile becomes the user's single row, kept on error |
| ProfilePage.ProfilePageState.HandleFileSelect | src/pages/ProfilePage.tsx:63-135 | no file or user does nothing; a failed check reports it; submitted exactly when checks, upload and update all succeed, writing the document url, pending, not verified; otherwise nothing changes |
| AddProduct.ValidFiles | src/components/dashboard/AddProductModal.tsx:51-91 | at most the remaining slots, each an image within 5 MiB taken from the picked files; every valid file among the first remaining-slots files is kept |
| AddProduct.ValidFilesKeepOrder | src/components/dashboard/AddProductModal.tsx:73 | the kept files are in pick order: for a pick within the slots, filtering distributes over concatenation |
| AddProduct.ValidFilesIgnoreOverflow | src/components/dashboard/AddProductModal.tsx:73 | files past the free slots do not affect what is kept |
| AddProduct.RemoveAt | src/components/dashboard/AddProductModal.tsx:142-148 | an index in range removes exactly that entry; any other index keeps the list |
| AddProduct.DropIndexSpec | src/components/dashboard/AddProductModal.tsx:142-148 | the index filter over a suffix equals slicing out the index |
| AddProduct.DropIndexOutside | src/components/dashboard/AddProductModal.tsx:142-148 | an index outside the range filters nothing out |
| AddProduct.DropIndexInside | src/components/dashboard/AddProductModal.tsx:142-148 | an index inside the range filters out exactly that entry |
| AddProduct.ProductRowFor | src/components/dashboard/AddProductModal.tsx:176-187 | the row carries the given id, the current vendor, title, description, price, commission and category, status pending and sales 0, the url list, and the first url (or null) as its image |
| AddProduct.ProductForm.constructor | src/components/dashboard/AddProductModal.tsx:38-45 | the form starts empty with commission 10 and no images |
| AddProduct.ProductForm.EditFields | src/components/dashboard/AddProductModal.tsx:322-373 | the fields take the typed values and the images are kept |
| AddProduct.ProductForm.HandleImageUpload | src/components/dashboard/AddProductModal.tsx:47-140 | the checks in order (no files, 5 already, no user, no valid file, a failed upload); on success both lists gain the valid files' urls; otherwise nothing changes |
| AddProduct.ProductForm.RemoveImage | src/components/dashboard/AddProductModal.tsx:142-148 | previews and urls both lose the same index |
| AddProduct.ProductForm.HandleSubmit | src/components/dashboard/AddProductModal.tsx:150-203 | missing title, price or category is refused; a product is added exactly when the fields are present, a user exists and the insert succeeds, then the form is reset; otherwise nothing changes |

## Left out

- Network, authentication and storage services are not modelled as services. Each call's failure is a flag. Each answer (a generated id, the link-code function, a public URL, the signUp result) is a parameter.
- Promise.all, fire-and-forget calls and concurrent handlers are not modelled. Each handler runs to completion on its own. A failed upload in a batch fails the whole batch.
- Column defaults are taken as the database would apply them: link counters 0, product status pending and sales 0, and withdrawal status pending. The withdrawal form writes no status; pending is the column's default.
- The unique (user_id, role) pair on user_roles is assumed. The "duplicate" test in the role insert handling implies it; the types file does not declare it.
- JavaScript reads a null as 0 in `+` and `*`. Every nullable number is read as 0 where the code adds it. The vendor revenue on the marketplace page relies on this.
- Floating point is not modelled:
  - Amounts and prices typed with `parseFloat` are taken as already in minor units.
  - The conversion rate is `JsRound(100 * conversions, clicks)`.
  - The unrounded "Earn" figure on the affiliate dashboard card is rendering and not modelled.
- Fetched lists are kept in store order; `order('created_at', ...)` is not modelled.
- `Date.now`, `Math.random` and the base-36 time stamp are parameters. So are storage paths, file extensions and the stored file contents.
- useAuth's `setTimeout` deferral is not modelled: roles are fetched at once. The status card's hide timer is a flag.
- The zod email check is a flag. Lengths are counted in characters, not UTF-16 units. Lower-casing is ASCII only.
- Exceptions are caught generically and their runtime messages are not kept. setup-admin's 500 carries no message.
- CORS headers are not modelled.
- Toasts, rendering, `formatCurrency`, the link copy to clipboard, and the onSuccess/onClose callbacks are not modelled.
- The checkout takes `totalPrice` from the cart hook as an input. It is not recomputed.
- Settings, the mock data and the rendering-only components are not part of this model. Those components are the landing page, navigation bars, product card and modal, cart drawer, stats cards, admin layout, wallet card, notification, App routes and the admin orders list.

## Findings

| source | as written | input that shows it | evidently intended | confidence | as-written member | corrected member |
|---|---|---|---|---|---|---|
| src/pages/AffiliateDashboard.tsx:131-137 | the create inserts the code under `link_code`, which affiliate_links does not have, and omits its required `code`, so the database refuses every insert | a signed-in affiliate, a code returned by the code function: the insert fails and no link is created | the code is written to `code` and the link is created | high, not executed | AffiliateDashboard.CreateOutcomeAsWritten (shown by AffiliateDashboard.LinkCodeRefused) | AffiliateDashboard.DashboardState.CreateAffiliateLink (outcome `CreateOutcomeFor(CreateColumns, ...)`, proved accepted by AffiliateDashboard.CodeColumnAccepted) |
| src/pages/Index.tsx:61-64 | the click update query is built inside the `then` callback but never awaited or given its own `then`, so the client never sends it | a `ref` code matching exactly one link: the link's clicks stay the same | the matching link's clicks rise by one (null as 0) | medium, not executed | IndexPage.ClickedLinksAsWritten (shown by IndexPage.ClickLostAsWritten) | IndexPage.ClickedLinks (proved by IndexPage.ClickCounted, used by IndexPage.TrackClick) |
