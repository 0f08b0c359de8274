/**
 * The seller's store page (`SellerStore`): the state `isEditing`/`editData`,
 * the insert or update it sends to the `stores` table, and which card and
 * buttons the page shows.
 */
module SellerStore {
  import opened Js
  import opened Backend

  /** `editData`: the texts typed into the store form. */
  datatype StoreForm = StoreForm(name: string, description: string, address: string, phone: string)

  const EmptyStoreForm := StoreForm("", "", "", "")

  /**
   * The row `createStore` inserts: owned by the signed-in user and, by the
   * column default, not yet verified.
   */
  function NewStoreRow(form: StoreForm, ownerId: UserId): (r: StoreRow)
    ensures r.ownerId == ownerId && !r.isVerified
    ensures StoreFormOf(r) == form
  {
    StoreRow(ownerId, Some(form.name), Some(form.description), Some(form.address), Some(form.phone), false)
  }

  /** The row after `updateStore`: the four form columns change, owner and verification do not. */
  function UpdatedStoreRow(row: StoreRow, form: StoreForm): (r: StoreRow)
    ensures r.ownerId == row.ownerId && r.isVerified == row.isVerified
    ensures StoreFormOf(r) == form
  {
    row.(name := Some(form.name), description := Some(form.description),
         address := Some(form.address), phone := Some(form.phone))
  }

  /** What `startEditing` copies out of a store: each column, or '' when it is empty. */
  function StoreFormOf(row: StoreRow): StoreForm {
    StoreForm(OrElse(row.name, ""), OrElse(row.description, ""),
              OrElse(row.address, ""), OrElse(row.phone, ""))
  }

  /** Saving the form that editing a store produced writes the same texts back. */
  lemma EditThenSaveKeepsForm(row: StoreRow)
    ensures StoreFormOf(UpdatedStoreRow(row, StoreFormOf(row))) == StoreFormOf(row)
    ensures UpdatedStoreRow(row, StoreFormOf(row)).isVerified == row.isVerified
  {
  }

  /** The verification badge; it depends on `is_verified` alone. */
  function VerificationBadge(row: StoreRow): (text: string)
    ensures text == "Terverifikasi" <==> row.isVerified
  {
    if row.isVerified then "Terverifikasi" else "Menunggu Verifikasi"
  }

  /** The status line of the read-only view; it depends on `is_verified` alone. */
  function StatusText(row: StoreRow): (text: string)
    ensures text == "Toko Anda sudah terverifikasi dan dapat menerima pesanan" <==> row.isVerified
  {
    if row.isVerified then "Toko Anda sudah terverifikasi dan dapat menerima pesanan"
    else "Toko Anda sedang dalam proses verifikasi oleh admin"
  }

  /**
   * The `stores` table after an update filtered by `id = storeId`: only that
   * row changes, and no row appears or disappears.
   */
  function UpdateStoreWhereId(stores: map<StoreId, StoreRow>, storeId: StoreId, form: StoreForm)
    : (r: map<StoreId, StoreRow>)
    ensures r.Keys == stores.Keys
    ensures forall id :: id in r && id != storeId ==> r[id] == stores[id]
    ensures storeId in stores ==> r[storeId] == UpdatedStoreRow(stores[storeId], form)
  {
    if storeId in stores then stores[storeId := UpdatedStoreRow(stores[storeId], form)] else stores
  }

  class StorePage {
    const userId: Option<UserId>
    const store: Option<MyStore>
    var isEditing: bool
    var editData: StoreForm
    /** The `stores` table. */
    var stores: map<StoreId, StoreRow>
    var refetches: nat

    constructor (userId: Option<UserId>, store: Option<MyStore>, stores: map<StoreId, StoreRow>)
      ensures this.userId == userId && this.store == store && this.stores == stores
      ensures !isEditing && editData == EmptyStoreForm && refetches == 0
    {
      this.userId, this.store, this.stores := userId, store, stores;
      isEditing, editData, refetches := false, EmptyStoreForm, 0;
    }

    /** The "Belum Ada Toko" card shows exactly when there is no store and no form. */
    predicate ShowsNoStoreCard()
      reads this
    {
      store.None? && !isEditing
    }

    /** The badge and the Edit button show exactly when a store exists and no form is open. */
    predicate ShowsEditButton()
      reads this
    {
      store.Some? && !isEditing
    }

    /** `store?.id` is truthy. */
    predicate HasStoreId() {
      store.Some? && store.value.id != ""
    }

    /**
     * Exactly one of the empty card, the read-only store card (with its
     * badge and Edit button) and the form is on the page.
     */
    lemma OneViewAtATime()
      ensures ShowsNoStoreCard() != ShowsEditButton() || isEditing
      ensures isEditing ==> !ShowsNoStoreCard() && !ShowsEditButton()
    {
    }

    /** What the save button is labelled, and so which request it sends. */
    function SaveCaption(): (caption: string)
      reads this
      ensures caption == "Update" <==> store.Some?
    {
      if store.Some? then "Update" else "Buat Toko"
    }

    /** The "Buat Toko" button of the empty card: it opens the form as it is. */
    method OpenCreateForm()
      modifies this`isEditing
      ensures isEditing
    {
      isEditing := true;
    }

    /**
     * `createStore`: nothing without a user id (an empty id counts as none);
     * otherwise the form is inserted owned by the user, and success closes
     * the form. `newId` is the id the backend generates for the new row,
     * which no row has yet.
     */
    method CreateStore(newId: StoreId, outcome: WriteOutcome)
      requires newId !in stores
      modifies this`isEditing, this`stores, this`refetches
      ensures !Truthy(userId) || outcome == WriteFailed ==>
        isEditing == old(isEditing) && stores == old(stores) && refetches == old(refetches)
      ensures Truthy(userId) && outcome == WriteOk ==>
        !isEditing && refetches == old(refetches) + 1
        && stores == old(stores)[newId := NewStoreRow(editData, userId.value)]
    {
      if !Truthy(userId) {
        return;
      }
      if outcome == WriteOk {
        stores := stores[newId := NewStoreRow(editData, userId.value)];
        isEditing := false;
        refetches := refetches + 1;
      }
    }

    /**
     * `updateStore`: nothing without a store id (an empty id counts as
     * none); otherwise only the row `store.id` is rewritten, and success
     * closes the form.
     */
    method UpdateStore(outcome: WriteOutcome)
      modifies this`isEditing, this`stores, this`refetches
      ensures !HasStoreId() || outcome == WriteFailed ==>
        isEditing == old(isEditing) && stores == old(stores) && refetches == old(refetches)
      ensures HasStoreId() && outcome == WriteOk ==>
        !isEditing && refetches == old(refetches) + 1
        && stores == UpdateStoreWhereId(old(stores), store.value.id, editData)
    {
      if !HasStoreId() {
        return;
      }
      if outcome == WriteOk {
        stores := UpdateStoreWhereId(stores, store.value.id, editData);
        isEditing := false;
        refetches := refetches + 1;
      }
    }

    /**
     * `startEditing`: copies the store into the form when there is one,
     * leaves the form as it is otherwise, and always opens the form.
     */
    method StartEditing()
      modifies this`isEditing, this`editData
      ensures isEditing
      ensures store.Some? ==> editData == StoreFormOf(store.value.row)
      ensures store.None? ==> editData == old(editData)
    {
      if store.Some? {
        editData := StoreFormOf(store.value.row);
      }
      isEditing := true;
    }

    /**
     * The save button: with a store it sends `updateStore`, without one
     * `createStore`; a request that is not sent or fails leaves the form
     * open and the table as it was.
     */
    method Save(newId: StoreId, outcome: WriteOutcome)
      requires isEditing
      requires store.None? ==> newId !in stores
      modifies this`isEditing, this`stores, this`refetches
      ensures store.Some? && (!HasStoreId() || outcome == WriteFailed) ==>
        isEditing && stores == old(stores) && refetches == old(refetches)
      ensures HasStoreId() && outcome == WriteOk ==>
        !isEditing && refetches == old(refetches) + 1
        && stores == UpdateStoreWhereId(old(stores), store.value.id, editData)
      ensures store.None? && (!Truthy(userId) || outcome == WriteFailed) ==>
        isEditing && stores == old(stores) && refetches == old(refetches)
      ensures store.None? && Truthy(userId) && outcome == WriteOk ==>
        !isEditing && refetches == old(refetches) + 1
        && stores == old(stores)[newId := NewStoreRow(editData, userId.value)]
    {
      if store.Some? {
        UpdateStore(outcome);
      } else {
        CreateStore(newId, outcome);
      }
    }

    /** "Batal": closes the form and keeps what was typed. */
    method Cancel()
      modifies this`isEditing
      ensures !isEditing
    {
      isEditing := false;
    }
  }
}
