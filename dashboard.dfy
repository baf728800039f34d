/**
 * The role dispatch page: once loading is over, a visitor without a user
 * goes to the login page and a user is sent to one role dashboard.
 */
module Dashboard {
  import opened Common
  import opened Schema
  import opened Auth

  datatype Navigation = Stay | NavigateTo(path: string)

  /** The `useEffect`: vendor first, then affiliate, then admin; with no flag the page stays. */
  function Redirect(loading: bool, signedIn: bool, r: RoleState): (n: Navigation)
    ensures loading ==> n == Stay
    ensures !loading && !signedIn ==> n == NavigateTo("/login")
    ensures !loading && signedIn ==>
      (n == NavigateTo("/vendor") <==> r.isVendor) &&
      (n == NavigateTo("/affiliate") <==> !r.isVendor && r.isAffiliate) &&
      (n == NavigateTo("/admin") <==> !r.isVendor && !r.isAffiliate && r.isAdmin) &&
      (n == Stay <==> !r.isVendor && !r.isAffiliate && !r.isAdmin)
  {
    if loading then Stay
    else if !signedIn then NavigateTo("/login")
    else if r.isVendor then NavigateTo("/vendor")
    else if r.isAffiliate then NavigateTo("/affiliate")
    else if r.isAdmin then NavigateTo("/admin")
    else Stay
  }

  /** The dashboard a primary role names. */
  function PrimaryPath(role: string): string {
    "/" + role
  }

  /**
   * The dispatch follows the primary role except for admins who also hold a
   * vendor or affiliate role: the primary role is admin, yet they are sent on
   * to the other dashboard.
   */
  lemma RedirectVersusPrimaryRole(roles: seq<string>)
    ensures var r := DeriveRoles(roles);
      (r.userRole == Some(VendorRole) ==> Redirect(false, true, r) == NavigateTo(PrimaryPath(VendorRole))) &&
      (r.userRole == Some(AffiliateRole) ==> Redirect(false, true, r) == NavigateTo(PrimaryPath(AffiliateRole))) &&
      (r.userRole == Some(AdminRole) && VendorRole !in roles && AffiliateRole !in roles ==>
        Redirect(false, true, r) == NavigateTo(PrimaryPath(AdminRole)))
    ensures DeriveRoles([AdminRole, VendorRole]).userRole == Some(AdminRole)
    ensures Redirect(false, true, DeriveRoles([AdminRole, VendorRole])) == NavigateTo("/vendor")
  {
    assert AdminRole in [AdminRole, VendorRole];
    assert VendorRole in [AdminRole, VendorRole];
  }

  /** A user whose primary role is none stays on the page and sees the role application options. */
  lemma NoRoleStays(roles: seq<string>)
    requires DeriveRoles(roles).userRole.None?
    ensures Redirect(false, true, DeriveRoles(roles)) == Stay
  {
  }
}
