/**
 * The roles map both admin user lists build from the `user_roles` rows: a
 * `forEach` that creates an empty array for a user id seen for the first
 * time and pushes the row's role onto that user's array.
 */
module RolesMap {
  import opened Rows
  import opened Schema

  function UserIs(userId: Id): UserRoleRow -> bool { (r: UserRoleRow) => r.userId == userId }

  function RoleNames(rows: seq<UserRoleRow>): (r: seq<string>)
    ensures |r| == |rows|
    ensures forall i :: 0 <= i < |rows| ==> r[i] == rows[i].role
  {
    MapRows(rows, (r: UserRoleRow) => r.role)
  }

  /** The roles of one user: that user's rows, in row order. */
  function RolesOf(rows: seq<UserRoleRow>, userId: Id): seq<string> {
    RoleNames(Where(rows, UserIs(userId)))
  }

  /** The map after the loop has visited every row. */
  function RolesMapOf(rows: seq<UserRoleRow>): map<Id, seq<string>> {
    if rows == [] then map[]
    else
      var m := RolesMapOf(rows[..|rows| - 1]);
      var r := rows[|rows| - 1];
      m[r.userId := (if r.userId in m then m[r.userId] else []) + [r.role]]
  }

  /** Appending a row adds its role to its own user's roles only. */
  lemma RolesOfSnoc(init: seq<UserRoleRow>, last: UserRoleRow, u: Id)
    ensures RolesOf(init + [last], u) == RolesOf(init, u) + (if last.userId == u then [last.role] else [])
  {
    WhereAppend(init, [last], UserIs(u));
    assert Where([last], UserIs(u)) == (if last.userId == u then [last] else []);
    RoleNamesAppend(Where(init, UserIs(u)), Where([last], UserIs(u)));
  }

  lemma RoleNamesAppend(a: seq<UserRoleRow>, b: seq<UserRoleRow>)
    ensures RoleNames(a + b) == RoleNames(a) + RoleNames(b)
  {
  }

  /** A user is a key exactly when they have a role, and their entry is their roles in row order. */
  lemma {:induction false} RolesMapAt(rows: seq<UserRoleRow>, u: Id)
    ensures u in RolesMapOf(rows) <==> RolesOf(rows, u) != []
    ensures u in RolesMapOf(rows) ==> RolesMapOf(rows)[u] == RolesOf(rows, u)
  {
    if rows != [] {
      var init := rows[..|rows| - 1];
      var last := rows[|rows| - 1];
      RolesMapAt(init, u);
      assert rows == init + [last];
      RolesOfSnoc(init, last, u);
    }
  }

  /**
   * The keys are exactly the user ids that occur, and under each key are that
   * user's roles, one per row, in row order.
   */
  lemma RolesMapGroups(rows: seq<UserRoleRow>, u: Id)
    ensures u in RolesMapOf(rows) <==> exists i :: 0 <= i < |rows| && rows[i].userId == u
    ensures u in RolesMapOf(rows) ==> RolesMapOf(rows)[u] == RolesOf(rows, u) && |RolesMapOf(rows)[u]| >= 1
  {
    RolesMapAt(rows, u);
    var w := Where(rows, UserIs(u));
    if exists i :: 0 <= i < |rows| && rows[i].userId == u {
      var i :| 0 <= i < |rows| && rows[i].userId == u;
      assert rows[i] in w;
    } else if w != [] {
      assert w[0] in w;
    }
  }

  /** The `forEach` loop. */
  method GroupRoles(rows: seq<UserRoleRow>) returns (m: map<Id, seq<string>>)
    ensures m == RolesMapOf(rows)
  {
    m := map[];
    var i := 0;
    while i < |rows|
      invariant 0 <= i <= |rows|
      invariant m == RolesMapOf(rows[..i])
    {
      var r := rows[i];
      if r.userId !in m {
        m := m[r.userId := []];
      }
      m := m[r.userId := m[r.userId] + [r.role]];
      assert rows[..i + 1][..i] == rows[..i];
      i := i + 1;
    }
    assert rows[..i] == rows;
  }
}
