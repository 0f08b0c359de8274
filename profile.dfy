/**
 * The profile page (`Profile`): the role badge, the role-specific cards,
 * and the read-only view, edit form and save of name, e-mail and phone.
 * Unlike the account page it has no address field, so its save leaves a
 * stored address alone.
 */
module Profile {
  import opened Js
  import opened Roles
  import opened Backend
  import opened ProfileFields

  /** `profileData`: the three texts of the edit form. */
  datatype ProfileForm = ProfileForm(fullName: string, email: string, phone: string)

  const EmptyProfileForm := ProfileForm("", "", "")

  /** `getRoleLabel()`: agrees with the label every page gives a role. */
  function GetRoleLabel(role: Option<AppRole>): (r: string)
    ensures r == RoleLabel(role)
  {
    match role
    case Some(Admin) => "Administrator"
    case Some(Seller) => "Penjual"
    case Some(Customer) => "Pembeli"
    case _ => "Pengguna"
  }

  /** `getRoleColor()`: agrees with the badge variant every page gives a role. */
  function GetRoleColor(role: Option<AppRole>): (r: string)
    ensures r == RoleBadgeVariant(role)
  {
    match role
    case Some(Admin) => "destructive"
    case Some(Seller) => "default"
    case Some(Customer) => "secondary"
    case _ => "outline"
  }

  /**
   * The paths of the role-specific cards: the seller card's two links
   * exactly for a seller, the administrator card's link exactly for an admin.
   */
  function RoleCardLinks(role: Option<AppRole>): (links: seq<string>)
    ensures "/seller/store" in links <==> role == Some(Seller)
    ensures "/seller/products" in links <==> role == Some(Seller)
    ensures "/admin" in links <==> role == Some(Admin)
    ensures |links| <= 2
  {
    (if role == Some(Seller) then ["/seller/store", "/seller/products"] else [])
    + (if role == Some(Admin) then ["/admin"] else [])
  }

  /** What `startEditing` puts in the form: each chain with '' at its end. */
  function FillForm(profile: Option<ProfileRow>, user: Option<User>): ProfileForm {
    ProfileForm(Chain(FullNameSources(profile, user), ""), Chain(EmailSources(profile, user), ""),
                Chain(PhoneSources(profile), ""))
  }

  /** The row `updateProfile` upserts: no address column is sent. */
  function WrittenRow(form: ProfileForm, now: string): ProfileRow {
    ProfileRow(Some(form.fullName), Some(form.email), Some(form.phone), None, Some(now))
  }

  /**
   * Saving on this page never changes a stored address, whatever was
   * typed; the account page's save then still shows it.
   */
  lemma SaveKeepsAddress(profiles: map<UserId, ProfileRow>, id: UserId, form: ProfileForm, now: string)
    requires id in profiles
    ensures Upserted(profiles, id, WrittenRow(form, now), true)[id].address == profiles[id].address
    ensures Upserted(profiles, id, WrittenRow(form, now), true)[id].fullName == Some(form.fullName)
  {
  }

  class ProfilePage {
    const user: Option<User>
    const role: Option<AppRole>
    const profile: Option<ProfileRow>
    var isEditing: bool
    var profileData: ProfileForm
    /** The `profiles` table. */
    var profiles: map<UserId, ProfileRow>
    var refetches: nat

    constructor (user: Option<User>, role: Option<AppRole>, profile: Option<ProfileRow>,
                 profiles: map<UserId, ProfileRow>)
      ensures this.user == user && this.role == role && this.profile == profile && this.profiles == profiles
      ensures !isEditing && profileData == EmptyProfileForm && refetches == 0
    {
      this.user, this.role, this.profile, this.profiles := user, role, profile, profiles;
      isEditing, profileData, refetches := false, EmptyProfileForm, 0;
    }

    /** The Edit button shows while the form is closed. */
    predicate ShowsEditButton()
      reads this
    {
      !isEditing
    }

    /**
     * `startEditing`: the form is filled from the profile, falling back to
     * the user's metadata name and e-mail, then ''; the form opens.
     */
    method StartEditing()
      modifies this`profileData, this`isEditing
      ensures profileData == FillForm(profile, user) && isEditing
      ensures !AllEmpty(FullNameSources(profile, user)) ==>
        profileData.fullName == Chain(FullNameSources(profile, user), Placeholder)
      ensures AllEmpty(FullNameSources(profile, user)) ==> profileData.fullName == ""
    {
      profileData := FillForm(profile, user);
      isEditing := true;
      FillMatchesDisplay(FullNameSources(profile, user));
    }

    /**
     * `updateProfile`: nothing without a user id; otherwise name, e-mail and
     * phone are upserted under the user's id, and success closes the form
     * and refetches, while failure leaves it open.
     */
    method UpdateProfile(outcome: WriteOutcome, now: string)
      modifies this`isEditing, this`profiles, this`refetches
      ensures NoUserId(user) || outcome == WriteFailed ==>
        isEditing == old(isEditing) && profiles == old(profiles) && refetches == old(refetches)
      ensures !NoUserId(user) && outcome == WriteOk ==>
        !isEditing && refetches == old(refetches) + 1
        && profiles == Upserted(old(profiles), user.value.id, WrittenRow(profileData, now), true)
    {
      if NoUserId(user) {
        return;
      }
      if outcome == WriteOk {
        profiles := Upserted(profiles, user.value.id, WrittenRow(profileData, now), true);
        isEditing := false;
        refetches := refetches + 1;
      }
    }

    /** "Batal": closes the form. */
    method Cancel()
      modifies this`isEditing
      ensures !isEditing
    {
      isEditing := false;
    }
  }
}
