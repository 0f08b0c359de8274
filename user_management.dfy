/**
 * The admin's user list (`UserManagement`): one entry per user, each with
 * the role it displays.
 */
module UserManagement {
  import opened Js
  import opened Roles
  import opened Backend
  import opened Admin

  /** What the list shows for one user. */
  datatype UserEntry = UserEntry(userId: UserId, fullName: Option<string>, email: Option<string>, role: string)

  /**
   * The role badge: the first role row when `user_roles` is a non-empty
   * array, and 'customer' when it is empty or not an array at all.
   */
  function DisplayedRole(userRoles: RolesField): (r: string)
    ensures userRoles.RoleArray? && userRoles.roles != [] ==> r == userRoles.roles[0]
    ensures userRoles.NotArray? || userRoles.roles == [] ==> r == RoleName(Customer)
  {
    if userRoles.RoleArray? && |userRoles.roles| > 0 then userRoles.roles[0] else "customer"
  }

  /** Role rows after the first never change what is displayed. */
  lemma LaterRolesIgnored(first: string, rest1: seq<string>, rest2: seq<string>)
    ensures DisplayedRole(RoleArray([first] + rest1)) == DisplayedRole(RoleArray([first] + rest2))
  {
  }

  /**
   * For a user the dashboard listed, the badge names the first role row,
   * and a user without role rows shows the default role of the application.
   */
  lemma DisplayedRoleOfListedUser(id: UserId, profile: ProfileRow, roles: Option<seq<AppRole>>)
    ensures roles.Some? && roles.value != [] ==>
      DisplayedRole(AttachRoles(id, profile, roles).userRoles) == RoleName(roles.value[0])
    ensures roles.None? || roles.value == [] ==>
      DisplayedRole(AttachRoles(id, profile, roles).userRoles) == RoleName(Customer)
  {
  }

  function EntryOf(u: AdminUser): UserEntry {
    UserEntry(u.id, u.profile.fullName, u.profile.email, DisplayedRole(u.userRoles))
  }

  /** The list: one entry per user, in the order given. */
  function Entries(users: seq<AdminUser>): (r: seq<UserEntry>)
    ensures |r| == |users|
    ensures forall i :: 0 <= i < |r| ==> r[i] == EntryOf(users[i])
  {
    seq(|users|, i requires 0 <= i < |users| => EntryOf(users[i]))
  }
}
