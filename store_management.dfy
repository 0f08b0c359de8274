/**
 * The admin's store list (`StoreManagement`): one entry per store, with a
 * verification badge, the owner line and the single button that flips the
 * store's verification.
 */
module StoreManagement {
  import opened Js
  import opened Backend
  import opened Admin

  /** A button of an entry and the flag it passes to `onVerifyStore`. */
  datatype VerifyButton = VerifyButton(caption: string, requests: bool)

  /** What the list shows for one store. */
  datatype StoreEntry = StoreEntry(
    storeId: StoreId,
    name: Option<string>,
    badge: string,
    badgeVariant: string,
    description: Option<string>,
    ownerName: string,
    ownerEmail: string,
    buttons: seq<VerifyButton>)

  /** The badge: "Terverifikasi" for a verified store, "Menunggu" otherwise. */
  function Badge(isVerified: bool): (text: string)
    ensures text == "Terverifikasi" <==> isVerified
    ensures text == "Menunggu" <==> !isVerified
  {
    if isVerified then "Terverifikasi" else "Menunggu"
  }

  /**
   * The entry's buttons: "Verifikasi" when the store is not verified,
   * "Batalkan" when it is. Exactly one is shown, and it always asks for the
   * opposite of the current flag.
   */
  function Buttons(isVerified: bool): (r: seq<VerifyButton>)
    ensures |r| == 1
    ensures r[0].requests == !isVerified
    ensures r[0].caption == "Verifikasi" <==> !isVerified
    ensures r[0].caption == "Batalkan" <==> isVerified
  {
    (if !isVerified then [VerifyButton("Verifikasi", true)] else [])
    + (if isVerified then [VerifyButton("Batalkan", false)] else [])
  }

  /** `store.profiles?.full_name || 'N/A'`. */
  function OwnerName(profiles: Option<OwnerProfile>): string {
    if profiles.Some? then OrElse(profiles.value.fullName, "N/A") else "N/A"
  }

  /** `store.profiles?.email || 'N/A'`. */
  function OwnerEmail(profiles: Option<OwnerProfile>): string {
    if profiles.Some? then OrElse(profiles.value.email, "N/A") else "N/A"
  }

  function EntryOf(s: AdminStore): StoreEntry {
    StoreEntry(s.id, s.row.name, Badge(s.row.isVerified),
               if s.row.isVerified then "default" else "secondary",
               s.row.description, OwnerName(s.profiles), OwnerEmail(s.profiles),
               Buttons(s.row.isVerified))
  }

  /**
   * The owner's name and e-mail fall back to 'N/A' each on its own: a
   * missing name never hides a present e-mail, nor the other way round.
   */
  lemma OwnerFallbacksIndependent(p: OwnerProfile)
    ensures Truthy(p.fullName) ==> OwnerName(Some(p)) == p.fullName.value
    ensures !Truthy(p.fullName) ==> OwnerName(Some(p)) == "N/A"
    ensures Truthy(p.email) ==> OwnerEmail(Some(p)) == p.email.value
    ensures !Truthy(p.email) ==> OwnerEmail(Some(p)) == "N/A"
    ensures OwnerName(None) == "N/A" && OwnerEmail(None) == "N/A"
  {
  }

  /** A store whose owner has no profile row shows 'N/A' for both. */
  lemma MissingOwnerShowsNA(id: StoreId, row: StoreRow)
    ensures EntryOf(AttachOwner(id, row, None)).ownerName == "N/A"
    ensures EntryOf(AttachOwner(id, row, None)).ownerEmail == "N/A"
  {
  }

  /** The list: one entry per store, in the order given. */
  function Entries(stores: seq<AdminStore>): (r: seq<StoreEntry>)
    ensures |r| == |stores|
    ensures forall i :: 0 <= i < |r| ==> r[i] == EntryOf(stores[i])
  {
    seq(|stores|, i requires 0 <= i < |stores| => EntryOf(stores[i]))
  }

  /**
   * Pressing an entry's button and having the update succeed flips that
   * store's flag in the table, and touches no other store.
   */
  lemma ButtonFlipsFlag(table: map<StoreId, StoreRow>, s: AdminStore)
    requires s.id in table && table[s.id] == s.row
    ensures SetVerified(table, s.id, EntryOf(s).buttons[0].requests)[s.id].isVerified == !s.row.isVerified
    ensures forall id :: id in table && id != s.id ==>
      SetVerified(table, s.id, EntryOf(s).buttons[0].requests)[id] == table[id]
  {
  }
}
