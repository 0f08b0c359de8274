/**
 * The account page (`Account`): the role badge, the sidebar tabs, the
 * role-specific links, and the profile tab's read-only view, edit form and
 * save.
 */
module Account {
  import opened Js
  import opened Roles
  import opened Backend
  import opened ProfileFields

  /** `profileData`: the four texts of the edit form. */
  datatype AccountForm = AccountForm(fullName: string, email: string, phone: string, address: string)

  const EmptyAccountForm := AccountForm("", "", "", "")

  /** The sidebar's six tabs. */
  datatype Tab = ProfileTab | OrdersTab | AddressesTab | WishlistTab | NotificationsTab | SettingsTab

  /** `getRoleLabel()`: agrees with the label every page gives a role. */
  function GetRoleLabel(role: Option<AppRole>): (r: string)
    ensures r == RoleLabel(role)
  {
    match role
    case Some(Admin) => "Administrator"
    case Some(Seller) => "Penjual"
    case Some(Customer) => "Pembeli"
    case _ => "Pengguna"
  }

  /** `getRoleColor()`: agrees with the badge variant every page gives a role. */
  function GetRoleColor(role: Option<AppRole>): (r: string)
    ensures r == RoleBadgeVariant(role)
  {
    match role
    case Some(Admin) => "destructive"
    case Some(Seller) => "default"
    case Some(Customer) => "secondary"
    case _ => "outline"
  }

  /**
   * The paths of the role-specific links: the two seller links exactly for
   * a seller, the admin panel exactly for an admin, and so never both.
   */
  function RoleLinks(role: Option<AppRole>): (links: seq<string>)
    ensures "/seller/store" in links <==> role == Some(Seller)
    ensures "/seller/products" in links <==> role == Some(Seller)
    ensures "/admin" in links <==> role == Some(Admin)
    ensures |links| <= 2
  {
    (if role == Some(Seller) then ["/seller/store", "/seller/products"] else [])
    + (if role == Some(Admin) then ["/admin"] else [])
  }

  /** The name under the avatar: full name from the profile or metadata, else the user's e-mail as it is. */
  function SidebarName(profile: Option<ProfileRow>, user: Option<User>): (name: Option<string>)
    ensures !AllEmpty(FullNameSources(profile, user)) ==>
      name == Some(Chain(FullNameSources(profile, user), "")) && name.value != ""
    ensures AllEmpty(FullNameSources(profile, user)) ==>
      name == (if user.Some? then user.value.email else None)
  {
    ChainCases(FullNameSources(profile, user), "", "");
    if !AllEmpty(FullNameSources(profile, user)) then Some(Chain(FullNameSources(profile, user), ""))
    else if user.Some? then user.value.email else None
  }

  /** What `startEditing` puts in the form: each chain with '' at its end. */
  function FillForm(profile: Option<ProfileRow>, user: Option<User>): AccountForm {
    AccountForm(Chain(FullNameSources(profile, user), ""), Chain(EmailSources(profile, user), ""),
                Chain(PhoneSources(profile), ""), Chain(AddressSources(profile), ""))
  }

  /** The row `updateProfile` upserts; `now` is the client's clock as ISO text. */
  function WrittenRow(form: AccountForm, now: string): ProfileRow {
    ProfileRow(Some(form.fullName), Some(form.email), Some(form.phone), Some(form.address), Some(now))
  }

  /**
   * After a successful save the re-read profile shows what was typed in
   * every field, or the placeholder for a field left empty.
   */
  lemma SavedProfileIsShown(profiles: map<UserId, ProfileRow>, user: User, form: AccountForm, now: string)
    ensures var row := Upserted(profiles, user.id, WrittenRow(form, now), false)[user.id];
      Chain(PhoneSources(Some(row)), Placeholder) == OrElse(Some(form.phone), Placeholder)
      && Chain(AddressSources(Some(row)), Placeholder) == OrElse(Some(form.address), Placeholder)
      && (form.fullName != "" ==> Chain(FullNameSources(Some(row), Some(user)), Placeholder) == form.fullName)
      && (form.email != "" ==> Chain(EmailSources(Some(row), Some(user)), Placeholder) == form.email)
  {
  }

  class AccountPage {
    const user: Option<User>
    const role: Option<AppRole>
    /** The profile row the `profile` query returned, if any. */
    const profile: Option<ProfileRow>
    var activeTab: Tab
    var isEditing: bool
    var profileData: AccountForm
    /** The `profiles` table. */
    var profiles: map<UserId, ProfileRow>
    var refetches: nat

    constructor (user: Option<User>, role: Option<AppRole>, profile: Option<ProfileRow>,
                 profiles: map<UserId, ProfileRow>)
      ensures this.user == user && this.role == role && this.profile == profile && this.profiles == profiles
      ensures activeTab == ProfileTab && !isEditing && profileData == EmptyAccountForm && refetches == 0
    {
      this.user, this.role, this.profile, this.profiles := user, role, profile, profiles;
      activeTab, isEditing, profileData, refetches := ProfileTab, false, EmptyAccountForm, 0;
    }

    /** The Edit button shows on the profile tab while the form is closed. */
    predicate ShowsEditButton()
      reads this
    {
      activeTab == ProfileTab && !isEditing
    }

    /** A sidebar button: only the tab changes. */
    method SelectTab(tab: Tab)
      modifies this`activeTab
      ensures activeTab == tab
    {
      activeTab := tab;
    }

    /**
     * `startEditing`: the form is filled from the profile, falling back to
     * the user's metadata name and e-mail, then ''; the form opens.
     */
    method StartEditing()
      modifies this`profileData, this`isEditing
      ensures profileData == FillForm(profile, user) && isEditing
      ensures !AllEmpty(PhoneSources(profile)) ==> profileData.phone == Chain(PhoneSources(profile), Placeholder)
      ensures AllEmpty(PhoneSources(profile)) ==> profileData.phone == ""
    {
      profileData := FillForm(profile, user);
      isEditing := true;
      FillMatchesDisplay(PhoneSources(profile));
    }

    /**
     * `updateProfile`: nothing without a user id; otherwise the form is
     * upserted under the user's id, and success closes the form and
     * refetches, while failure leaves it open.
     */
    method UpdateProfile(outcome: WriteOutcome, now: string)
      modifies this`isEditing, this`profiles, this`refetches
      ensures NoUserId(user) || outcome == WriteFailed ==>
        isEditing == old(isEditing) && profiles == old(profiles) && refetches == old(refetches)
      ensures !NoUserId(user) && outcome == WriteOk ==>
        !isEditing && refetches == old(refetches) + 1
        && profiles == Upserted(old(profiles), user.value.id, WrittenRow(profileData, now), false)
    {
      if NoUserId(user) {
        return;
      }
      if outcome == WriteOk {
        profiles := Upserted(profiles, user.value.id, WrittenRow(profileData, now), false);
        isEditing := false;
        refetches := refetches + 1;
      }
    }

    /** "Batal": closes the form. */
    method Cancel()
      modifies this`isEditing
      ensures !isEditing
    {
      isEditing := false;
    }
  }
}
