/** accounts/models.py: a user's role and extra permissions, the default
    permission list of each role, and the permission decision. */
module AccountsModels {

  /** UserProfile.ROLE_CHOICES, plus any other string the column may hold
      (OtherRole, for values outside the choices; see RoleOf). */
  datatype Role =
    | Sales | SalesMgr | Warehouse | Production | Qc | Logistics | Ceo
    | OtherRole(name: string)

  /** The role column's stored value for each role. */
  function RoleName(role: Role): string
  {
    match role
    case Sales => "sales"
    case SalesMgr => "sales_mgr"
    case Warehouse => "warehouse"
    case Production => "production"
    case Qc => "qc"
    case Logistics => "logistics"
    case Ceo => "ceo"
    case OtherRole(name) => name
  }

  /** The values of ROLE_CHOICES. */
  const RoleNames: set<string> := {"sales", "sales_mgr", "warehouse", "production", "qc", "logistics", "ceo"}

  /** A role read from the column: OtherRole only for a value outside
      ROLE_CHOICES, so OtherRole("ceo") never stands for the ceo. */
  predicate ValidRole(role: Role)
  {
    role.OtherRole? ==> role.name !in RoleNames
  }

  /** Reading the role column: each ROLE_CHOICES value is its role, any
      other string is an unknown role. */
  function RoleOf(name: string): (r: Role)
    ensures ValidRole(r)
    ensures RoleName(r) == name
    ensures r.OtherRole? <==> name !in RoleNames
  {
    if name == "sales" then Sales
    else if name == "sales_mgr" then SalesMgr
    else if name == "warehouse" then Warehouse
    else if name == "production" then Production
    else if name == "qc" then Qc
    else if name == "logistics" then Logistics
    else if name == "ceo" then Ceo
    else OtherRole(name)
  }

  /** Writing a valid role to the column and reading it back gives it back. */
  lemma RoleOfRoleName(role: Role)
    requires ValidRole(role)
    ensures RoleOf(RoleName(role)) == role
  {
  }

  /** A UserProfile: its role and the codes of its extra Permission rows. */
  datatype UserProfile = UserProfile(role: Role, extra: set<string>)

  /** get_role_default_permissions(): the fixed list of each role, in the
      order written (the production list names production.task.view twice);
      ceo and any unknown role get the empty list. */
  function RoleDefaultPermissions(role: Role): (r: seq<string>)
    ensures role == Ceo || role.OtherRole? ==> r == []
  {
    match role
    case Sales => [
      "sales.order.create", "sales.order.view", "sales.order.edit",
      "inventory.customer.view", "inventory.customer.create", "inventory.customer.edit",
      "inventory.customer.delete"]
    case SalesMgr => [
      "sales.order.create", "sales.order.view", "sales.order.edit", "sales.order.approve",
      "sales.order.view_all", "inventory.customer.view", "inventory.customer.create",
      "inventory.customer.edit", "inventory.customer.delete", "inventory.customer.manage"]
    case Warehouse => [
      "inventory.view", "inventory.transaction.view", "inventory.product.view",
      "inventory.product.manage", "inventory.material.manage", "inventory.category.manage",
      "inventory.adjustment.create", "production.requisition.approve", "production.inbound.create"]
    case Production => [
      "production.task.view", "production.task.receive", "production.requisition.create",
      "production.task.view"]
    case Qc => ["production.qc.create", "production.task.view"]
    case Logistics => [
      "logistics.shipment.create", "logistics.shipment.view", "logistics.driver.manage",
      "logistics.vehicle.manage"]
    case Ceo => []
    case OtherRole(_) => []
  }

  /** UserProfile.has_permission: ceo has every code; otherwise a code from
      the role's defaults or from the extra permissions. */
  function HasPermission(profile: UserProfile, code: string): (r: bool)
    ensures profile.role == Ceo ==> r
    ensures profile.role != Ceo ==> (r <==> code in RoleDefaultPermissions(profile.role) || code in profile.extra)
  {
    if profile.role == Ceo then true
    else if code in RoleDefaultPermissions(profile.role) then true
    else code in profile.extra
  }

  /** get_all_permissions(): the set built from the role's defaults,
      updated with the extra codes. */
  method GetAllPermissions(profile: UserProfile) returns (permissions: set<string>)
    ensures forall c :: c in permissions <==> c in RoleDefaultPermissions(profile.role) || c in profile.extra
  {
    var defaults := RoleDefaultPermissions(profile.role);
    permissions := {};
    var i := 0;
    while i < |defaults|
      invariant 0 <= i <= |defaults|
      invariant forall c :: c in permissions <==> c in defaults[..i]
    {
      assert defaults[..i + 1] == defaults[..i] + [defaults[i]];
      permissions := permissions + {defaults[i]};
      i := i + 1;
    }
    assert defaults[..|defaults|] == defaults;
    permissions := permissions + profile.extra;
  }

  /** For every role but ceo, has_permission(c) holds exactly when c is
      among get_all_permissions(). */
  lemma HasPermissionIffListed(profile: UserProfile, code: string, permissions: set<string>)
    requires profile.role != Ceo
    requires forall c :: c in permissions <==> c in RoleDefaultPermissions(profile.role) || c in profile.extra
    ensures HasPermission(profile, code) <==> code in permissions
  {
  }
}
