/**
 * The backend as an in-memory store: one sequence of rows per table, in
 * insertion order. Handlers read and write its fields; each remote call's
 * failure is an input of the handler that makes it.
 */
module Store {
  import opened Common
  import opened Rows
  import opened Schema

  /** A snapshot of every table, used to state what a handler leaves behind. */
  datatype Tables = Tables(
    orders: seq<OrderRow>,
    orderItems: seq<OrderItemRow>,
    affiliateLinks: seq<AffiliateLinkRow>,
    profiles: seq<ProfileRow>,
    transactions: seq<TransactionRow>,
    withdrawals: seq<WithdrawalRow>,
    products: seq<ProductRow>,
    applications: seq<ApplicationRow>,
    userRoles: seq<UserRoleRow>,
    authUsers: seq<AuthUser>)

  /** `user_roles` has a unique (user_id, role) pair. */
  predicate HasRole(roles: seq<UserRoleRow>, userId: Id, role: string) {
    exists i | 0 <= i < |roles| :: roles[i].userId == userId && roles[i].role == role
  }

  /** Outcome of an insert or update call. */
  datatype WriteResult = WriteOk | WriteError | DuplicateKey

  /**
   * Inserting a role row: the unique constraint rejects a pair that is already
   * present; otherwise the call either fails or appends the row.
   */
  function InsertRole(roles: seq<UserRoleRow>, row: UserRoleRow, fails: bool): (r: (WriteResult, seq<UserRoleRow>))
    ensures r.0 == WriteOk <==> !HasRole(roles, row.userId, row.role) && !fails
    ensures r.0 == WriteOk ==> r.1 == roles + [row]
    ensures r.0 != WriteOk ==> r.1 == roles
    ensures HasRole(r.1, row.userId, row.role) <==> r.0 != WriteError
  {
    if HasRole(roles, row.userId, row.role) then (DuplicateKey, roles)
    else if fails then (WriteError, roles)
    else
      assert (roles + [row])[|roles|] == row;
      (WriteOk, roles + [row])
  }

  class Store {
    var orders: seq<OrderRow>
    var orderItems: seq<OrderItemRow>
    var affiliateLinks: seq<AffiliateLinkRow>
    var profiles: seq<ProfileRow>
    var transactions: seq<TransactionRow>
    var withdrawals: seq<WithdrawalRow>
    var products: seq<ProductRow>
    var applications: seq<ApplicationRow>
    var userRoles: seq<UserRoleRow>
    var authUsers: seq<AuthUser>

    /** All tables at once. */
    function Snapshot(): Tables
      reads this
    {
      Tables(orders, orderItems, affiliateLinks, profiles, transactions,
             withdrawals, products, applications, userRoles, authUsers)
    }

    /** A store whose tables are all empty. */
    constructor ()
      ensures Snapshot() == Tables([], [], [], [], [], [], [], [], [], [])
    {
      orders, orderItems, affiliateLinks, profiles, transactions := [], [], [], [], [];
      withdrawals, products, applications, userRoles, authUsers := [], [], [], [], [];
    }

    /** Replaces every table by the corresponding one of t. */
    method Load(t: Tables)
      modifies this
      ensures Snapshot() == t
    {
      orders, orderItems, affiliateLinks, profiles, transactions :=
        t.orders, t.orderItems, t.affiliateLinks, t.profiles, t.transactions;
      withdrawals, products, applications, userRoles, authUsers :=
        t.withdrawals, t.products, t.applications, t.userRoles, t.authUsers;
    }

    /** `.from('user_roles').insert(row)`. */
    method InsertRoleRow(row: UserRoleRow, fails: bool) returns (result: WriteResult)
      modifies this`userRoles
      ensures (result, userRoles) == InsertRole(old(userRoles), row, fails)
    {
      var r := InsertRole(userRoles, row, fails);
      result, userRoles := r.0, r.1;
    }
  }
}
