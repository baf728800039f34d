/**
 * The authentication context: the three role flags and the primary role
 * derived from the user's `user_roles` rows, and how signing in, changing
 * session and signing out update them.
 */
module Auth {
  import opened Common
  import opened Schema
  import opened Store
  import opened RolesMap

  datatype RoleState = RoleState(userRole: Option<string>, isAdmin: bool, isVendor: bool, isAffiliate: bool)

  const NoRoles := RoleState(None, false, false, false)

  /**
   * `fetchUserRoles` on a successful query: each flag says whether the list
   * holds that role, and the primary role is admin, else vendor, else
   * affiliate, else none.
   */
  function DeriveRoles(roles: seq<string>): (r: RoleState)
    ensures r.isAdmin <==> AdminRole in roles
    ensures r.isVendor <==> VendorRole in roles
    ensures r.isAffiliate <==> AffiliateRole in roles
    ensures AdminRole in roles ==> r.userRole == Some(AdminRole)
    ensures AdminRole !in roles && VendorRole in roles ==> r.userRole == Some(VendorRole)
    ensures AdminRole !in roles && VendorRole !in roles && AffiliateRole in roles ==> r.userRole == Some(AffiliateRole)
    ensures AdminRole !in roles && VendorRole !in roles && AffiliateRole !in roles ==> r.userRole == None
  {
    var primary :=
      if AdminRole in roles then Some(AdminRole)
      else if VendorRole in roles then Some(VendorRole)
      else if AffiliateRole in roles then Some(AffiliateRole)
      else None;
    RoleState(primary, AdminRole in roles, VendorRole in roles, AffiliateRole in roles)
  }

  /** The primary role agrees with the flags. */
  lemma PrimaryRoleConsistent(roles: seq<string>)
    ensures var r := DeriveRoles(roles);
      (r.userRole == Some(AdminRole) <==> r.isAdmin) &&
      (r.userRole == Some(VendorRole) <==> r.isVendor && !r.isAdmin) &&
      (r.userRole == Some(AffiliateRole) <==> r.isAffiliate && !r.isVendor && !r.isAdmin) &&
      (r.userRole.None? <==> !r.isAdmin && !r.isVendor && !r.isAffiliate)
  {
  }

  /** The role names of a user's rows (`data.map(r => r.role)`). */
  function UserRoleNames(rows: seq<UserRoleRow>, userId: Id): seq<string> {
    RolesOf(rows, userId)
  }

  class AuthState {
    /** The signed-in user's id and the session's user id (null when signed out). */
    var user: Option<Id>
    var session: Option<Id>
    var loading: bool
    var roles: RoleState

    constructor ()
      ensures user == None && session == None && loading && roles == NoRoles
    {
      user, session, loading, roles := None, None, true, NoRoles;
    }

    method ResetRoles()
      modifies this`roles
      ensures roles == NoRoles
    {
      roles := NoRoles;
    }

    /** `fetchUserRoles`: a query error leaves the role state as it was. */
    method FetchUserRoles(st: Store, userId: Id, queryFails: bool)
      modifies this`roles
      ensures roles == if queryFails then old(roles) else DeriveRoles(UserRoleNames(st.userRoles, userId))
    {
      if queryFails {
        return;
      }
      var names := UserRoleNames(st.userRoles, userId);
      roles := DeriveRoles(names);
    }

    /**
     * The auth listener: the user follows the session; a session with a
     * user fetches its roles (deferred in the source, here done at once),
     * no session resets them; loading ends.
     */
    method OnAuthStateChange(st: Store, sessionUser: Option<Id>, queryFails: bool)
      modifies this`user, this`session, this`loading, this`roles
      ensures user == sessionUser && session == sessionUser && !loading
      ensures sessionUser.None? ==> roles == NoRoles
      ensures sessionUser.Some? ==>
        roles == if queryFails then old(roles) else DeriveRoles(UserRoleNames(st.userRoles, sessionUser.value))
    {
      session := sessionUser;
      user := sessionUser;
      if sessionUser.Some? {
        FetchUserRoles(st, sessionUser.value, queryFails);
      } else {
        ResetRoles();
      }
      loading := false;
    }

    /** The initial `getSession`: like the listener, but no session leaves the roles alone. */
    method RestoreSession(st: Store, sessionUser: Option<Id>, queryFails: bool)
      modifies this`user, this`session, this`loading, this`roles
      ensures user == sessionUser && session == sessionUser && !loading
      ensures sessionUser.None? ==> roles == old(roles)
      ensures sessionUser.Some? ==>
        roles == if queryFails then old(roles) else DeriveRoles(UserRoleNames(st.userRoles, sessionUser.value))
    {
      session := sessionUser;
      user := sessionUser;
      if sessionUser.Some? {
        FetchUserRoles(st, sessionUser.value, queryFails);
      }
      loading := false;
    }

    /** `signOut` clears the user, the session and every role. */
    method SignOut()
      modifies this`user, this`session, this`roles
      ensures user == None && session == None && roles == NoRoles
    {
      user := None;
      session := None;
      ResetRoles();
    }
  }
}
