/**
 * The two authorisation checks of the admin-only routes: the listings of
 * src/controllers/routes/feedback.py look for an "admin" role name among
 * `current_user.roles`, while `list_logs` and `create_admin_user` compare the
 * single `role` column with `UserRole.ADMIN`.
 */
module Gates {
  import opened Http
  import opened Models

  const AdminRequired: HttpError := HttpError(Forbidden, "Admin access required")
  const AdminsOnly: HttpError := HttpError(Forbidden, "Access forbidden: Admins only")

  /** `[ur.role.name for ur in current_user.roles]`. */
  function RoleNames(roles: seq<RoleLink>): (names: seq<string>)
    ensures |names| == |roles|
    ensures forall i :: 0 <= i < |roles| ==> names[i] == roles[i].roleName
  {
    if |roles| == 0 then [] else [roles[0].roleName] + RoleNames(roles[1..])
  }

  /** Some role link of the caller is named "admin". */
  predicate HasAdminRoleName(roles: seq<RoleLink>) {
    exists i :: 0 <= i < |roles| && roles[i].roleName == "admin"
  }

  /**
   * The gate of `list_users`, `list_feedback` and `list_models`. A caller
   * without a `roles` attribute makes the handler raise, which is a 500.
   */
  function RolesGate(caller: Caller): (r: Result<()>)
    ensures r.Ok? <==> caller.roles.Some? && HasAdminRoleName(caller.roles.value)
    ensures caller.roles.None? ==> r == Err(InternalError)
    ensures caller.roles.Some? && r.Err? ==> r.error == AdminRequired
  {
    match caller.roles
    case None => Err(InternalError)
    case Some(roles) =>
      var names := RoleNames(roles);
      if "admin" in names then Ok(()) else Err(AdminRequired)
  }

  /** The gate of `list_logs` and `create_admin_user`: only the `role` column counts. */
  function RoleGate(caller: Caller): (r: Result<()>)
    ensures r.Ok? <==> caller.user.role == ADMIN
    ensures r.Err? ==> r.error == AdminsOnly
  {
    if caller.user.role != ADMIN then Err(AdminsOnly) else Ok(())
  }

  /**
   * The two representations disagree: an ADMIN loaded from the store (no
   * `roles` attribute) passes the `role` gate and fails the `roles` one, and
   * a caller whose role links name "admin" but whose column says USER is the
   * other way round.
   */
  lemma GatesDisagree(id: nat, admin: User, roles: seq<RoleLink>)
    requires admin.role == ADMIN
    requires HasAdminRoleName(roles)
    ensures RoleGate(Caller(id, admin, None)).Ok? && RolesGate(Caller(id, admin, None)).Err?
    ensures var user := admin.(role := USER);
      RoleGate(Caller(id, user, Some(roles))).Err? && RolesGate(Caller(id, user, Some(roles))).Ok?
  {
  }
}
