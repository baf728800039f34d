/**
 * Row shapes of the marketplace's tables, in the names the pages read and
 * write. Money is an integer number of minor units. Columns the pages guard
 * with `|| 0` are optional so that a null reads as zero exactly where the
 * code says so. Two profile columns (`image_verified` and
 * `verification_image_url`) exist only in the pages that write them; they
 * are kept apart from the schema's `photo_verified` and
 * `verification_photo_url`, so a write through one name never reaches the other.
 */
module Schema {
  import opened Common

  /** Row ids (uuid strings) and user ids. */
  type Id = string

  datatype AffiliateLinkRow = AffiliateLinkRow(
    id: Id,
    affiliateId: Id,
    productId: Id,
    code: string,
    clicks: Option<int>,
    conversions: Option<int>,
    commissionEarned: Option<int>)

  datatype ApplicationRow = ApplicationRow(
    id: Id,
    userId: Id,
    email: string,
    fullName: string,
    role: string,
    status: Option<string>,
    businessName: Option<string>,
    phone: Option<string>,
    reason: Option<string>)

  datatype OrderRow = OrderRow(
    id: Id,
    customerName: string,
    customerEmail: string,
    totalAmount: int,
    status: string,
    affiliateLinkId: Option<Id>)

  datatype OrderItemRow = OrderItemRow(
    orderId: Id,
    productId: Id,
    quantity: int,
    price: int,
    commissionAmount: int)

  datatype ProductRow = ProductRow(
    id: Id,
    vendorId: Id,
    title: string,
    description: Option<string>,
    price: int,
    commission: int,
    category: string,
    status: string,
    sales: Option<int>,
    imageUrl: Option<string>,
    imageUrls: Option<seq<string>>)

  datatype ProfileRow = ProfileRow(
    id: Id,
    email: string,
    fullName: Option<string>,
    phone: Option<string>,
    emailVerified: Option<bool>,
    phoneVerified: Option<bool>,
    photoVerified: Option<bool>,
    verificationPhotoUrl: Option<string>,
    imageVerified: Option<bool>,
    verificationImageUrl: Option<string>,
    verificationStatus: Option<string>,
    walletBalance: Option<int>)

  datatype TransactionRow = TransactionRow(
    userId: Id,
    kind: string,
    amount: int,
    description: Option<string>,
    referenceId: Option<Id>)

  datatype UserRoleRow = UserRoleRow(userId: Id, role: string)

  datatype WithdrawalRow = WithdrawalRow(
    id: Id,
    userId: Id,
    amount: int,
    paymentMethod: string,
    paymentDetails: string,
    status: string)

  /** An account of the authentication service. */
  datatype AuthUser = AuthUser(id: Id, email: string, fullName: string, emailConfirmed: bool)

  /** Status values the pages write and compare against. */
  const Pending: string := "pending"
  const Approved: string := "approved"
  const Rejected: string := "rejected"
  const Completed: string := "completed"
  const Verified: string := "verified"

  /** Roles: the `app_role` enum lists only vendor and affiliate; the code also writes admin. */
  const VendorRole: string := "vendor"
  const AffiliateRole: string := "affiliate"
  const AdminRole: string := "admin"

  /** The value of a filter select that keeps every row. */
  const AllFilter: string := "all"
}
