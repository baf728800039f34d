/**
 * The admin applications page: the status-filtered list and the decision on
 * one application, which records the status and, on approval, grants the
 * applied-for role.
 */
module Applications {
  import opened Common
  import opened Rows
  import opened Schema
  import opened Store
  import opened Listing

  function ApplicationStatus(a: ApplicationRow): Option<string> { a.status }
  function ApplicationIdIs(id: Id): ApplicationRow -> bool { (a: ApplicationRow) => a.id == id }

  /** `fetchApplications`' query for the selected filter. */
  function FilterApplications(rows: seq<ApplicationRow>, filter: string): (r: seq<ApplicationRow>)
    ensures filter == AllFilter ==> r == rows
    ensures filter != AllFilter ==> forall a :: a in r ==> a.status == Some(filter)
    ensures forall a :: a in r ==> a in rows
    ensures forall a :: a in rows && a.status == Some(filter) ==> a in r
  {
    FilterByStatus(rows, ApplicationStatus, filter)
  }

  /** `.update({ status }).eq('id', id)` on the applications. */
  function SetApplicationStatus(rows: seq<ApplicationRow>, id: Id, status: string): (r: seq<ApplicationRow>)
    ensures |r| == |rows|
    ensures forall i :: 0 <= i < |rows| && rows[i].id == id ==> r[i] == rows[i].(status := Some(status))
    ensures forall i :: 0 <= i < |rows| && rows[i].id != id ==> r[i] == rows[i]
  {
    UpdateWhere(rows, ApplicationIdIs(id), (a: ApplicationRow) => a.(status := Some(status)))
  }

  /** The role row an approval inserts, taken from the application. */
  function GrantedRole(app: ApplicationRow): UserRoleRow {
    UserRoleRow(app.userId, app.role)
  }

  /**
   * `handleApplication`: a failed status update stops everything (no role,
   * no refetch). Otherwise the status is recorded, an approval inserts the
   * role row (its error, duplicate or not, is only logged) and the list is
   * refetched.
   */
  method HandleApplication(st: Store, app: ApplicationRow, approved: bool, updateFails: bool, roleInsertFails: bool)
    returns (refetch: bool, roleResult: Option<WriteResult>)
    modifies st`applications, st`userRoles
    ensures refetch == !updateFails
    ensures updateFails ==> st.applications == old(st.applications) && st.userRoles == old(st.userRoles) && roleResult.None?
    ensures !updateFails ==> st.applications == SetApplicationStatus(old(st.applications), app.id, DecisionStatus(approved))
    ensures !updateFails && !approved ==> st.userRoles == old(st.userRoles) && roleResult.None?
    ensures !updateFails && approved ==>
      roleResult.Some? && (roleResult.value, st.userRoles) == InsertRole(old(st.userRoles), GrantedRole(app), roleInsertFails)
  {
    var status := DecisionStatus(approved);
    if updateFails {
      return false, None;
    }
    st.applications := SetApplicationStatus(st.applications, app.id, status);
    roleResult := None;
    if approved {
      var r := st.InsertRoleRow(GrantedRole(app), roleInsertFails);
      roleResult := Some(r);
    }
    refetch := true;
  }

  /**
   * Approving grants the role unless the insert fails for a reason other than
   * a duplicate, and approving again finds the duplicate and leaves the roles
   * as they are, the user still holding the role.
   */
  lemma ApprovingTwiceKeepsRole(roles: seq<UserRoleRow>, app: ApplicationRow, firstFails: bool, secondFails: bool)
    requires !firstFails || HasRole(roles, app.userId, app.role)
    ensures var (r1, roles1) := InsertRole(roles, GrantedRole(app), firstFails);
      var (r2, roles2) := InsertRole(roles1, GrantedRole(app), secondFails);
      HasRole(roles1, app.userId, app.role) && r2 == DuplicateKey && roles2 == roles1 &&
      HasRole(roles2, app.userId, app.role)
  {
  }

  /** Actions are offered only on pending applications, which show the Pending badge. */
  lemma ApplicationRowDisplay(a: ApplicationRow)
    ensures ShowsActions(ApplicationStatus(a)) <==> a.status == Some(Pending)
    ensures ShowsActions(ApplicationStatus(a)) ==> StatusBadge(ApplicationStatus(a)) == PendingBadge
  {
    ActionsOnlyOnPendingBadge(a.status);
  }
}
