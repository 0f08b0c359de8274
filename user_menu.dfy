/**
 * The account drop-down in the header (`UserMenu`): the name and role shown
 * at its top, the items it offers for each role, and sign-out.
 */
module UserMenu {
  import opened Js
  import opened Roles
  import opened Backend
  import opened AuthContext

  /** `getRoleLabel()`: agrees with the label every page gives a role. */
  function GetRoleLabel(role: Option<AppRole>): (r: string)
    ensures r == RoleLabel(role)
  {
    match role
    case Some(Admin) => "Administrator"
    case Some(Seller) => "Penjual"
    case Some(Customer) => "Pembeli"
    case _ => "Pengguna"
  }

  /** `getRoleColor()`: the text colour class of the role line. */
  function GetRoleColor(role: Option<AppRole>): (r: string)
    ensures role == Some(Admin) <==> r == "text-red-600"
    ensures role == Some(Seller) <==> r == "text-blue-600"
    ensures role == Some(Customer) <==> r == "text-green-600"
    ensures role == None <==> r == "text-gray-600"
  {
    match role
    case Some(Admin) => "text-red-600"
    case Some(Seller) => "text-blue-600"
    case Some(Customer) => "text-green-600"
    case _ => "text-gray-600"
  }

  /** Different roles, and the unknown role, never share a colour. */
  lemma RoleColorInjective(a: Option<AppRole>, b: Option<AppRole>)
    ensures GetRoleColor(a) == GetRoleColor(b) <==> a == b
  {
  }

  /** The name at the top: the metadata full name, else the e-mail as it is. */
  function DisplayName(user: Option<User>): (name: Option<string>)
    ensures user.Some? && Truthy(user.value.metadataFullName) ==> name == user.value.metadataFullName
    ensures user.Some? && !Truthy(user.value.metadataFullName) ==> name == user.value.email
    ensures user.None? ==> name.None?
  {
    if user.Some? && Truthy(user.value.metadataFullName) then user.value.metadataFullName
    else if user.Some? then user.value.email
    else None
  }

  datatype MenuAction = Navigate(path: string) | SignOut

  datatype MenuItem = MenuItem(caption: string, action: MenuAction)

  const AccountItem := MenuItem("Akun Saya", Navigate("/account"))
  const SettingsItem := MenuItem("Pengaturan", Navigate("/profile"))
  const SignOutItem := MenuItem("Keluar", SignOut)
  const AdminItem := MenuItem("Panel Admin", Navigate("/admin"))
  const StoreItem := MenuItem("Toko Saya", Navigate("/seller/store"))
  const ProductsItem := MenuItem("Produk Saya", Navigate("/seller/products"))

  /**
   * The items, top to bottom: the admin panel for an admin, the store and
   * products pages for a seller, then always the account, the settings
   * and sign-out.
   */
  function MenuItems(role: Option<AppRole>): (items: seq<MenuItem>)
    ensures AdminItem in items <==> role == Some(Admin)
    ensures StoreItem in items <==> role == Some(Seller)
    ensures ProductsItem in items <==> role == Some(Seller)
    ensures |items| >= 3 && items[|items| - 3..] == [AccountItem, SettingsItem, SignOutItem]
  {
    var admin := if role == Some(Admin) then [AdminItem] else [];
    var seller := if role == Some(Seller) then [StoreItem, ProductsItem] else [];
    var common := [AccountItem, SettingsItem, SignOutItem];
    assert AdminItem !in seller + common && StoreItem !in admin + common && ProductsItem !in admin + common;
    var items := admin + seller + common;
    assert items[|items| - 3..] == common;
    items
  }

  /**
   * `handleSignOut`: the sign-out completes, which the authentication
   * context sees as a notification without a session, and then the page
   * goes to '/'. Returns the context's state afterwards and the path.
   */
  function HandleSignOut(s: State): (r: (State, string))
    ensures r.0.user.None? && r.0.session.None? && r.0.role.None? && !r.0.loading
    ensures r.0.pending == s.pending
    ensures r.1 == "/"
  {
    (Step(s, AuthStateChanged(None)), "/")
  }
}
