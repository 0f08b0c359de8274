/**
 * The closed set of application roles and the presentation every page
 * derives from a (possibly unknown) role. The pages each carry their own
 * copy of these switches; the copies are proved equal to the definitions
 * here.
 */
module Roles {
  import opened Js

  /** `AppRole`: the values of the `user_roles.role` column. */
  datatype AppRole = Admin | Seller | Customer

  /** The text stored in the database for each role. */
  function RoleName(role: AppRole): string {
    match role
    case Admin => "admin"
    case Seller => "seller"
    case Customer => "customer"
  }

  /** Reads a stored role name back; anything else is not a role. */
  function ParseRoleName(s: string): (r: Option<AppRole>)
    ensures r.Some? ==> RoleName(r.value) == s
  {
    if s == "admin" then Some(Admin)
    else if s == "seller" then Some(Seller)
    else if s == "customer" then Some(Customer)
    else None
  }

  lemma ParseRoleNameOfRoleName(role: AppRole)
    ensures ParseRoleName(RoleName(role)) == Some(role)
  {
  }

  /**
   * The label shown for a role: a role not known yet (`null`) reads
   * "Pengguna" (user).
   */
  function RoleLabel(role: Option<AppRole>): string {
    match role
    case Some(Admin) => "Administrator"
    case Some(Seller) => "Penjual"
    case Some(Customer) => "Pembeli"
    case None => "Pengguna"
  }

  /** Different roles, and the unknown role, never share a label. */
  lemma RoleLabelInjective(a: Option<AppRole>, b: Option<AppRole>)
    ensures RoleLabel(a) == RoleLabel(b) <==> a == b
  {
  }

  /** The badge variant the account and profile pages give a role. */
  function RoleBadgeVariant(role: Option<AppRole>): string {
    match role
    case Some(Admin) => "destructive"
    case Some(Seller) => "default"
    case Some(Customer) => "secondary"
    case None => "outline"
  }

  lemma RoleBadgeVariantInjective(a: Option<AppRole>, b: Option<AppRole>)
    ensures RoleBadgeVariant(a) == RoleBadgeVariant(b) <==> a == b
  {
  }
}
