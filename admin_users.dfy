/**
 * The separate admin application's user list: profiles and the roles map,
 * fetched together, and the fallbacks it displays.
 */
module AdminUsers {
  import opened Common
  import opened Schema
  import opened Store
  import opened RolesMap

  /** The roles cell: the user's roles, or "No roles" when the map has no entry. */
  datatype RolesCell = RoleBadges(roles: seq<string>) | NoRoles

  function RolesCellFor(roles: map<Id, seq<string>>, userId: Id): (c: RolesCell)
    ensures c == NoRoles <==> userId !in roles
  {
    if userId in roles then RoleBadges(roles[userId]) else NoRoles
  }

  /** `full_name || 'N/A'`. */
  function NameCell(p: ProfileRow): (s: string)
    ensures Truthy(p.fullName) ==> s == p.fullName.value
    ensures !Truthy(p.fullName) ==> s == "N/A"
  {
    if Truthy(p.fullName) then p.fullName.value else "N/A"
  }

  /** For a map built from the role rows, "No roles" is shown exactly for a user with no row. */
  lemma NoRolesIffNoRow(rows: seq<UserRoleRow>, userId: Id)
    ensures RolesCellFor(RolesMapOf(rows), userId) == NoRoles <==>
      forall i :: 0 <= i < |rows| ==> rows[i].userId != userId
    ensures RolesCellFor(RolesMapOf(rows), userId) != NoRoles ==>
      RolesCellFor(RolesMapOf(rows), userId) == RoleBadges(RolesOf(rows, userId))
  {
    RolesMapGroups(rows, userId);
  }

  class AdminUsersState {
    var profiles: seq<ProfileRow>
    var userRoles: map<Id, seq<string>>

    constructor ()
      ensures profiles == [] && userRoles == map[]
    {
      profiles, userRoles := [], map[];
    }

    /** `fetchUsers`: each of the two lists is replaced only when its query returned data. */
    method FetchUsers(st: Store, profilesFail: bool, rolesFail: bool)
      modifies this
      ensures profiles == if profilesFail then old(profiles) else st.profiles
      ensures userRoles == if rolesFail then old(userRoles) else RolesMapOf(st.userRoles)
    {
      if !profilesFail {
        profiles := st.profiles;
      }
      if !rolesFail {
        var rolesMap := GroupRoles(st.userRoles);
        userRoles := rolesMap;
      }
    }
  }
}
