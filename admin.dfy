/**
 * The admin dashboard (`Admin`): the store and user lists it assembles, the
 * four counters shown above them, and `verifyStore`, which sets one store's
 * verification flag.
 */
module Admin {
  import opened Js
  import opened Roles
  import opened Backend

  /** The `full_name, email` columns selected from an owner's profile. */
  datatype OwnerProfile = OwnerProfile(fullName: Option<string>, email: Option<string>)

  /** What the owner column holds when the owner has no profile row. */
  const MissingOwner := OwnerProfile(Some("N/A"), Some("N/A"))

  /**
   * A store as the dashboard lists it: the row with its owner's profile
   * attached. The list component also accepts a store without one.
   */
  datatype AdminStore = AdminStore(id: StoreId, row: StoreRow, profiles: Option<OwnerProfile>)

  /** The `user_roles` value of a listed user: an array of role names, or anything else. */
  datatype RolesField = RoleArray(roles: seq<string>) | NotArray

  /** A profile as the dashboard lists it, with the user's role rows attached. */
  datatype AdminUser = AdminUser(id: UserId, profile: ProfileRow, userRoles: RolesField)

  /** One store with `profile || {full_name: 'N/A', email: 'N/A'}` attached. */
  function AttachOwner(id: StoreId, row: StoreRow, profile: Option<OwnerProfile>): (s: AdminStore)
    ensures s.id == id && s.row == row && s.profiles.Some?
    ensures profile.Some? ==> s.profiles == profile
    ensures profile.None? ==> s.profiles == Some(MissingOwner)
  {
    AdminStore(id, row, Some(if profile.Some? then profile.value else MissingOwner))
  }

  /**
   * The store list: every store row, in the order the query returned them,
   * each with the profile of its owner (looked up by `owner_id`) attached.
   */
  function StoresWithProfiles(rows: seq<(StoreId, StoreRow)>, profiles: map<UserId, OwnerProfile>)
    : (r: seq<AdminStore>)
    ensures |r| == |rows|
    ensures forall i :: 0 <= i < |r| ==>
      r[i].id == rows[i].0 && r[i].row == rows[i].1
      && r[i].profiles == Some(if rows[i].1.ownerId in profiles then profiles[rows[i].1.ownerId] else MissingOwner)
  {
    seq(|rows|, i requires 0 <= i < |rows| =>
      AttachOwner(rows[i].0, rows[i].1,
                  if rows[i].1.ownerId in profiles then Some(profiles[rows[i].1.ownerId]) else None))
  }

  /** One user with `roles || []` attached; the role rows carry role names. */
  function AttachRoles(id: UserId, profile: ProfileRow, roles: Option<seq<AppRole>>): (u: AdminUser)
    ensures u.id == id && u.profile == profile && u.userRoles.RoleArray?
    ensures roles.None? ==> u.userRoles.roles == []
    ensures roles.Some? ==> |u.userRoles.roles| == |roles.value|
    ensures roles.Some? ==>
      forall k :: 0 <= k < |roles.value| ==> u.userRoles.roles[k] == RoleName(roles.value[k])
  {
    var found := if roles.Some? then roles.value else [];
    AdminUser(id, profile, RoleArray(seq(|found|, k requires 0 <= k < |found| => RoleName(found[k]))))
  }

  /** The stores whose `is_verified` equals `flag`, in list order. */
  function WithVerified(stores: seq<AdminStore>, flag: bool): (r: seq<AdminStore>)
    ensures |r| <= |stores|
    ensures forall s :: s in r <==> s in stores && s.row.isVerified == flag
  {
    if stores == [] then []
    else if stores[0].row.isVerified == flag then [stores[0]] + WithVerified(stores[1..], flag)
    else WithVerified(stores[1..], flag)
  }

  /** `x?.length || 0`: the length of a loaded list, 0 before it has loaded. */
  function LengthOrZero<T>(list: Option<seq<T>>): (n: nat)
    ensures list.None? ==> n == 0
    ensures list.Some? ==> n == |list.value|
  {
    if list.Some? then |list.value| else 0
  }

  function UsersCount(users: Option<seq<AdminUser>>): nat {
    LengthOrZero(users)
  }

  function StoresCount(stores: Option<seq<AdminStore>>): nat {
    LengthOrZero(stores)
  }

  function VerifiedStoresCount(stores: Option<seq<AdminStore>>): nat {
    if stores.Some? then |WithVerified(stores.value, true)| else 0
  }

  function PendingStoresCount(stores: Option<seq<AdminStore>>): nat {
    if stores.Some? then |WithVerified(stores.value, false)| else 0
  }

  /** Every store is either verified or pending, never both. */
  lemma {:induction false} FiltersPartition(stores: seq<AdminStore>)
    ensures |WithVerified(stores, true)| + |WithVerified(stores, false)| == |stores|
  {
    if stores != [] {
      FiltersPartition(stores[1..]);
    }
  }

  /** The verified and pending counters add up to the store counter, loaded or not. */
  lemma CountsPartition(stores: Option<seq<AdminStore>>)
    ensures VerifiedStoresCount(stores) + PendingStoresCount(stores) == StoresCount(stores)
    ensures stores.None? ==>
      StoresCount(stores) == 0 && VerifiedStoresCount(stores) == 0 && PendingStoresCount(stores) == 0
  {
    if stores.Some? {
      FiltersPartition(stores.value);
    }
  }

  /** The `stores` table after `update({is_verified: verified}).eq('id', storeId)`. */
  function SetVerified(stores: map<StoreId, StoreRow>, storeId: StoreId, verified: bool)
    : (r: map<StoreId, StoreRow>)
    ensures r.Keys == stores.Keys
    ensures forall id :: id in r && id != storeId ==> r[id] == stores[id]
    ensures storeId in stores ==> r[storeId] == stores[storeId].(isVerified := verified)
  {
    if storeId in stores then stores[storeId := stores[storeId].(isVerified := verified)] else stores
  }

  /** Setting the flag twice is setting it once. */
  lemma SetVerifiedIdempotent(stores: map<StoreId, StoreRow>, storeId: StoreId, verified: bool)
    ensures SetVerified(SetVerified(stores, storeId, verified), storeId, verified)
         == SetVerified(stores, storeId, verified)
  {
  }

  class AdminPanel {
    /** The `stores` table. */
    var stores: map<StoreId, StoreRow>
    /** How many times the store list has been refetched. */
    var refetches: nat

    constructor (stores: map<StoreId, StoreRow>)
      ensures this.stores == stores && refetches == 0
    {
      this.stores := stores;
      refetches := 0;
    }

    /**
     * `verifyStore(storeId, verified)`: on success only the row `storeId`
     * changes, only in its flag, and the list is refetched; a failure
     * changes nothing and refetches nothing.
     */
    method VerifyStore(storeId: StoreId, verified: bool, outcome: WriteOutcome)
      modifies this
      ensures outcome == WriteOk ==>
        stores == SetVerified(old(stores), storeId, verified) && refetches == old(refetches) + 1
      ensures outcome == WriteFailed ==> stores == old(stores) && refetches == old(refetches)
    {
      if outcome == WriteOk {
        stores := SetVerified(stores, storeId, verified);
        refetches := refetches + 1;
      }
    }
  }
}
