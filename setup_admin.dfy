/**
 * The `setup-admin` edge function: it creates the first administrator, a
 * confirmed auth user with the admin role, and refuses once any admin role
 * row exists.
 */
module SetupAdmin {
  import opened Common
  import opened Rows
  import opened Schema
  import opened Store

  /** The JSON body's fields; a body that is not JSON is None. */
  datatype Body = Body(email: Option<string>, password: Option<string>, fullName: Option<string>)
  datatype Request = Request(httpMethod: string, body: Option<Body>)

  /** A thrown exception's message is the runtime's, so it is not kept. */
  datatype ResponseBody = EmptyBody | ErrorBody(error: string) | ServerError | SuccessBody
  /** Every response carries the CORS headers, so only status and body are kept. */
  datatype Response = Response(status: nat, body: ResponseBody)

  /** The answers of the store calls the handler depends on. */
  datatype SetupFaults = SetupFaults(checkFails: bool, createError: Option<string>, roleInsertFails: bool, roleErrorMessage: string)

  /** The auth and role tables the handler reads and writes. */
  datatype AdminTables = AdminTables(authUsers: seq<AuthUser>, userRoles: seq<UserRoleRow>)

  function RoleIs(role: string): UserRoleRow -> bool { (r: UserRoleRow) => r.role == role }

  /** `.eq('role', 'admin').limit(1)`: at most one admin row, or no data when the query fails. */
  function ExistingAdmins(roles: seq<UserRoleRow>, checkFails: bool): (r: Option<seq<UserRoleRow>>)
    ensures r.Some? <==> !checkFails
    ensures r.Some? ==> |r.value| <= 1 && (|r.value| > 0 <==> exists i :: 0 <= i < |roles| && roles[i].role == AdminRole)
  {
    if checkFails then None
    else
      var admins := Where(roles, RoleIs(AdminRole));
      assert (exists i :: 0 <= i < |roles| && roles[i].role == AdminRole) ==> admins != [] by {
        if exists i :: 0 <= i < |roles| && roles[i].role == AdminRole {
          var i :| 0 <= i < |roles| && roles[i].role == AdminRole;
          assert roles[i] in admins;
        }
      }
      assert admins != [] ==> exists i :: 0 <= i < |roles| && roles[i].role == AdminRole by {
        if admins != [] {
          assert admins[0] in admins;
        }
      }
      Some(if |admins| <= 1 then admins else admins[..1])
  }

  predicate AdminExists(roles: seq<UserRoleRow>) {
    exists i :: 0 <= i < |roles| && roles[i].role == AdminRole
  }

  function BadRequest(error: string): Response { Response(400, ErrorBody(error)) }

  /** The handler's whole decision sequence, with the new user's id as a parameter. */
  function Handle(t: AdminTables, req: Request, newUserId: Id, f: SetupFaults): (r: (Response, AdminTables))
    ensures req.httpMethod == "OPTIONS" ==> r == (Response(200, EmptyBody), t)
    ensures req.httpMethod != "OPTIONS" && req.body.None? ==> r.0.status == 500 && r.1 == t
    ensures r.0.status == 200 && req.httpMethod != "OPTIONS" ==> r.0.body == SuccessBody
    ensures r.0.status != 200 ==> r.1.userRoles == t.userRoles
    ensures req.httpMethod != "OPTIONS" && req.body.Some? &&
            (!Truthy(req.body.value.email) || !Truthy(req.body.value.password)) ==>
      r == (BadRequest("Email and password required"), t)
  {
    if req.httpMethod == "OPTIONS" then (Response(200, EmptyBody), t)
    else if req.body.None? then (Response(500, ServerError), t)
    else
      var body := req.body.value;
      if !Truthy(body.email) || !Truthy(body.password) then (BadRequest("Email and password required"), t)
      else
        var existingAdmins := ExistingAdmins(t.userRoles, f.checkFails);
        if existingAdmins.Some? && |existingAdmins.value| > 0 then (BadRequest("Admin already exists"), t)
        else if f.createError.Some? then (BadRequest(f.createError.value), t)
        else
          var name := if Truthy(body.fullName) then body.fullName.value else "Admin";
          var users := t.authUsers + [AuthUser(newUserId, body.email.value, name, true)];
          var (roleResult, roles) := InsertRole(t.userRoles, UserRoleRow(newUserId, AdminRole), f.roleInsertFails);
          if roleResult != WriteOk then (BadRequest(f.roleErrorMessage), AdminTables(users, roles))
          else (Response(200, SuccessBody), AdminTables(users, roles))
  }

  /** A request that reaches `createUser`. */
  predicate Creates(t: AdminTables, req: Request, f: SetupFaults) {
    req.httpMethod != "OPTIONS" && req.body.Some? &&
    Truthy(req.body.value.email) && Truthy(req.body.value.password) &&
    !(!f.checkFails && AdminExists(t.userRoles)) && f.createError.None?
  }

  /**
   * Exactly a request that reaches `createUser` adds one confirmed user, named
   * "Admin" when no full name is given; it succeeds exactly when the role
   * insert does, and a failed role insert keeps the user.
   */
  lemma CreatesUser(t: AdminTables, req: Request, newUserId: Id, f: SetupFaults)
    requires forall i :: 0 <= i < |t.userRoles| ==> t.userRoles[i].userId != newUserId
    ensures var (resp, after) := Handle(t, req, newUserId, f);
      (Creates(t, req, f) ==>
        var body := req.body.value;
        after.authUsers == t.authUsers +
          [AuthUser(newUserId, body.email.value, if Truthy(body.fullName) then body.fullName.value else "Admin", true)] &&
        (resp.status == 200 <==> !f.roleInsertFails) &&
        (resp.status == 200 ==> after.userRoles == t.userRoles + [UserRoleRow(newUserId, AdminRole)])) &&
      (!Creates(t, req, f) ==> after == t)
  {
    var (resp, after) := Handle(t, req, newUserId, f);
    if req.httpMethod != "OPTIONS" && req.body.Some? && Truthy(req.body.value.email) && Truthy(req.body.value.password) {
      var e := ExistingAdmins(t.userRoles, f.checkFails);
      assert e.Some? && |e.value| > 0 <==> !f.checkFails && AdminExists(t.userRoles);
      assert !HasRole(t.userRoles, newUserId, AdminRole);
    }
  }

  /**
   * At most one bootstrap: after a successful call, a second call whose
   * existence check succeeds is refused and creates no user.
   */
  lemma AtMostOneAdmin(t: AdminTables, req1: Request, id1: Id, f1: SetupFaults, req2: Request, id2: Id, f2: SetupFaults)
    requires req1.httpMethod != "OPTIONS" && Handle(t, req1, id1, f1).0.status == 200
    requires req2.httpMethod != "OPTIONS" && req2.body.Some? && !f2.checkFails
    ensures var after1 := Handle(t, req1, id1, f1).1;
      AdminExists(after1.userRoles) &&
      Handle(after1, req2, id2, f2).1 == after1 &&
      Handle(after1, req2, id2, f2).0.status == 400
  {
    var body := req1.body.value;
    var after1 := Handle(t, req1, id1, f1).1;
    var (roleResult, roles) := InsertRole(t.userRoles, UserRoleRow(id1, AdminRole), f1.roleInsertFails);
    assert roleResult == WriteOk;
    assert roles[|t.userRoles|] == UserRoleRow(id1, AdminRole);
    assert AdminExists(after1.userRoles);
  }

  /** The handler over the store: method and store stand for the function above. */
  method ServeSetupAdmin(st: Store, req: Request, newUserId: Id, f: SetupFaults) returns (resp: Response)
    modifies st`authUsers, st`userRoles
    ensures (resp, AdminTables(st.authUsers, st.userRoles)) ==
      Handle(AdminTables(old(st.authUsers), old(st.userRoles)), req, newUserId, f)
  {
    if req.httpMethod == "OPTIONS" {
      return Response(200, EmptyBody);
    }
    if req.body.None? {
      return Response(500, ServerError);
    }
    var body := req.body.value;
    if !Truthy(body.email) || !Truthy(body.password) {
      return BadRequest("Email and password required");
    }
    var existingAdmins := ExistingAdmins(st.userRoles, f.checkFails);
    if existingAdmins.Some? && |existingAdmins.value| > 0 {
      return BadRequest("Admin already exists");
    }
    if f.createError.Some? {
      return BadRequest(f.createError.value);
    }
    var name := if Truthy(body.fullName) then body.fullName.value else "Admin";
    st.authUsers := st.authUsers + [AuthUser(newUserId, body.email.value, name, true)];
    var roleResult := st.InsertRoleRow(UserRoleRow(newUserId, AdminRole), f.roleInsertFails);
    if roleResult != WriteOk {
      return BadRequest(f.roleErrorMessage);
    }
    return Response(200, SuccessBody);
  }
}
