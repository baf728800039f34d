/**
 * The admin login page: sign in, then admit the user only when their role
 * rows include admin; anyone else is signed out again.
 */
module LoginPage {
  import opened Common
  import opened Schema
  import opened Store
  import opened RolesMap

  /** The calls `handleLogin` makes, in order. */
  datatype LoginCall = SignInCall | RoleQueryCall | SignOutCall | NavigateToDashboard

  datatype LoginOutcome = SignInFailed | AccessDenied | LoggedIn

  /** `roleData?.some(r => r.role === 'admin')`: no data reads as false. */
  predicate IsAdminGate(roleData: Option<seq<string>>) {
    roleData.Some? && AdminRole in roleData.value
  }

  /**
   * `handleLogin`, where `signedIn` is the user id a successful sign-in
   * returns (None for an error).
   */
  method HandleLogin(st: Store, signedIn: Option<Id>, roleQueryFails: bool)
    returns (outcome: LoginOutcome, calls: seq<LoginCall>)
    ensures signedIn.None? ==> outcome == SignInFailed && calls == [SignInCall]
    ensures outcome == LoggedIn <==>
      signedIn.Some? && !roleQueryFails && AdminRole in RolesOf(st.userRoles, signedIn.value)
    ensures outcome == LoggedIn ==> calls == [SignInCall, RoleQueryCall, NavigateToDashboard]
    ensures outcome == AccessDenied ==> calls == [SignInCall, RoleQueryCall, SignOutCall]
    ensures NavigateToDashboard in calls <==> outcome == LoggedIn
  {
    calls := [SignInCall];
    if signedIn.None? {
      return SignInFailed, calls;
    }
    calls := calls + [RoleQueryCall];
    var roleData := if roleQueryFails then None else Some(RolesOf(st.userRoles, signedIn.value));
    var isAdmin := IsAdminGate(roleData);
    if roleQueryFails || !isAdmin {
      calls := calls + [SignOutCall];
      return AccessDenied, calls;
    }
    calls := calls + [NavigateToDashboard];
    return LoggedIn, calls;
  }
}
